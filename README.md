# ouija result aggregation, modelled in Dafny

ouija is a small Flask and MySQL service. It reports on Mozilla test-job
results. Once the rows come back from the database, `src/server.py` turns
them into four JSON reports. This project models that aggregation code.
Rows are inputs, so no database or HTTP layer is involved:

- **Fail rates** (`FailRate`): `calculate_fail_rate` gives two percentages
  of failed jobs. One leaves retried jobs out of the denominator and one
  counts all jobs. Arithmetic is exact `real`.
- **Histogram** (`Histogram`): `binify`, modelled as a method with the
  source's loop and proved equal to a per-bucket count. The buckets add up
  to the sample size when the boundaries ascend.
- **Dates** (`Dates`):
  - `clean_date_params`: the query parameters, the defaults and the
    fallback window, over integer minutes.
  - `get_date_range`: the earliest and latest timestamp.
- **String order** (`StringOrder`): Python's ordering of strings and
  `sorted()` on distinct strings.
- **Outcome classes** (`Outcomes`): the two ways the service classifies a
  job's result token, with a lemma that the two agree.
- **Slave health** (`Slaves`): the body of `run_slaves_query`:
  - the per-slave counter dictionary, including `jobs_since_last_success`;
  - the display threshold and the list of displayed slaves;
  - their fail rates;
  - the grouping of sorted slave names into platforms by `itertools.groupby`;
  - the platform fail rates over whole groups;
  - the deletion of slaves that are not displayed.
- **Revision report** (`Revisions`): the body of `run_platform_query`:
  - a `CSetSummary` class whose four colour counters the fold increments in
    place;
  - the global per-test-type summaries;
  - the sorted test-type list with `total` and `percentage` appended;
  - the total Counter, the percentages and the overall fail rate.
- **SETA grouping** (`Seta`): the loop of `run_seta_query` that files each
  failure row under its bug id.

Points where the model follows the Python 2 code closely:

- A `usercancel` token still registers its test type with zero counts. In
  the corrected model an unknown token does the same. As written, an
  unknown token raises NameError instead (see Findings).
- If there are rows but none has a colour, the test count is zero. Then the
  percentage loop divides by zero. The model returns
  `Err(ZeroDivisionError)`. As written, the code reaches that division only
  when every uncoloured row is `usercancel`. An unknown token raises
  NameError first.
- If there are no rows at all, `test_summaries` is empty. Then the total
  Counter is empty, no division happens, and both fail rates are 0.
- `groupby` only joins consecutive names. Sorted names of one platform can
  therefore be split by a name of another platform ("a-1", "a-1-1", "a-2");
  `Slaves.PlatformSplitAroundAnother` shows this. The platform's entry then
  comes from the last of its runs that holds a displayed slave
  (`Slaves.RollupValue`). The other run's slaves are missing from its rate
  (`Slaves.SplitPlatformRate`).
- `round(0.4 * days)` is Python 2 rounding, where halves go away from zero.
  A half never occurs here, so the threshold equals `(4 * days + 5) div 10`.
  The model multiplies by the exact real 0.4, where Python multiplies in
  floating point. The two round alike: the exact fractional part is a multiple
  of 0.2, so it is at least 0.1 away from a half, and the float error for any
  date span is far smaller than that.

The slave rows are taken in the order the SQL query returns them, which is
by date. The proofs hold for any order: `jobs_since_last_success` counts the
slave's rows after its last success in that order. Each changeset comes with
its own rows.

## Model

| member | source | states |
|---|---|---|
| Outcomes.SlaveClassOf | src/server.py:203-211 | the slave fold's if/elif chain; StepCounts gives the counter each class bumps, and SchemesAgree relates it to the colour chain |
| Outcomes.TestOutcomeOf | src/server.py:303-318 | the revision fold's if/elif chain, as corrected: four colours, usercancel, and any other token unrecognised; TestOutcomeAsWritten gives the NameError the code raises for the last kind |
| Outcomes.SchemesAgree | src/server.py:303-314 | a token has a colour exactly when the slave fold gives it a class, and the class is that colour's |
| FailRate.CalculateFailRate | src/server.py:98-113 | the loop over the denominators [totals - retries, totals] gives FailRateOf: 0/0 when passes == totals, otherwise 100 - passes*100/d per entry, 0 for a zero d |
| FailRate.NoFailuresIsZero | src/server.py:100-101 | passes == totals gives both rates 0, whatever retries is, even for totals == 0 |
| FailRate.ZeroDenominatorOnlyItsEntry | src/server.py:105-110 | retries == totals != passes zeroes failRate only; failRateWithRetries is still 100 - passes*100/totals |
| FailRate.FailRateBounds | src/server.py:104-113 | with passes + retries <= totals both rates lie in [0, 100] |
| FailRate.FailRateAtMostWithRetries | src/server.py:105-108 | with passes + retries <= totals, failRate <= failRateWithRetries |
| Histogram.Binify | src/server.py:116-126 | no boundaries raises IndexError (None); otherwise the len(bins) + 1 counts below bins[0], in each [bins[i-1], bins[i]) and at or above bins[-1] |
| Histogram.HistogramSum | src/server.py:116-126 | with ascending boundaries the buckets add up to len(data) |
| Histogram.Example | src/server.py:116-126 | binify([10, 20], [5, 10, 15, 25]) == [1, 2, 1] |
| Dates.DateParam | src/server.py:68-69 | a non-empty value under the first key wins; otherwise the second key's value, and None only when the first is missing or empty and the second is missing |
| Dates.EmptyFirstKeyFallsThrough | src/server.py:68 | an empty startDate with startdate "2024-01-01" gives "2024-01-01"; a non-empty startDate wins; an empty startDate alone gives None |
| Dates.ParseDate | src/server.py:83-95 | None stays None; a present value goes to the abstract parser, which stands for the three strptime masks |
| Dates.ResolveWindow | src/server.py:72-80 | the window's start date is strictly before its end date and never after today |
| Dates.CleanDateParams | src/server.py:63-80 | for any query, any parser and any clock the start date is strictly before the end date |
| Dates.DefaultWindow | src/server.py:72-73 | with no dates the window is (today - 7, today) |
| Dates.EmptyQuery | src/server.py:68-73 | an empty query dictionary gives (today - 7, today), whatever the parser |
| Dates.Fallback | src/server.py:76-78 | a start in the future or not on an earlier day than the end gives (today - 7, today + 1); otherwise the parsed days are kept |
| Dates.EndBeforeStart | src/server.py:76-78 | an end before the start is replaced by (today - 7, today + 1) |
| Dates.GetDateRange | src/server.py:57-60 | None exactly for no dates; otherwise the min and max, both taken from the dates and bounding all of them |
| Slaves.BumpCounters | src/server.py:201-212 | one row's counter updates equal Step |
| Slaves.StepCounts | src/server.py:202-212 | a row adds 1 to total, adds 1 to the counter of its own token only, resets jobs_since_last_success on success and increments it otherwise |
| Slaves.FoldRows | src/server.py:194-213 | the setdefault loop builds exactly Tally(rows), the first-seen key list and the date column |
| Slaves.TallyKeys | src/server.py:200-201 | a slave has counters exactly when one of the rows is its own |
| Slaves.TallyCounts | src/server.py:200-212 | total counts the slave's rows, and fail/retry/success/infra count its rows of those tokens |
| Slaves.TotalIsSumOfClasses | src/server.py:181-212 | when every row carries one of the five queried tokens, total == fail + retry + infra + success |
| Slaves.SinceLastSuccess | src/server.py:202-209 | jobs_since_last_success is the number of the slave's rows after its last success |
| Slaves.SinceLastSuccessExample | src/server.py:202-209 | success, testfailed, success leaves the counter at 0 with total 3 |
| Slaves.Threshold | src/server.py:171-175 | 5 up to 8 days, else round(0.4 * days) with halves away from zero; ThresholdInIntegers gives it in integers |
| Slaves.ThresholdInIntegers | src/server.py:171-175 | jobs is 5 up to 8 days, else round(0.4 * days) == (4 * days + 5) div 10 |
| Slaves.NoHalfCase | src/server.py:175 | 0.4 * days is never a half, so the rounding of halves never matters |
| Slaves.EligibleNames | src/server.py:216 | slave_list holds each slave with total > jobs once, and no other |
| Slaves.AttachRates | src/server.py:219-224 | every slave of slave_list gets sfr = calculate_fail_rate(success, retry, total); the other entries and the keys are unchanged |
| Slaves.PlatformKey | src/server.py:231 | the key is the name when it has no '-', else the prefix before its last '-' |
| Slaves.GroupRuns | src/server.py:231 | groupby over the names by platform key; the first group's key is the first name's, and GroupRunsCover with GroupRunsWellGrouped pin down the rest |
| Slaves.GroupRunsCover | src/server.py:230-231 | the groups, concatenated, are the sorted names in order |
| Slaves.GroupRunsWellGrouped | src/server.py:231 | every group is non-empty and shares one key, and neighbouring groups have different keys |
| StringOrder.Sort | src/server.py:230 | sorted() on distinct strings, here and at line 327: ascending in Python's string order, with the same strings |
| Slaves.PlatformRates | src/server.py:227-249 | the groupby loop builds exactly Rollup |
| Slaves.RollupKeys | src/server.py:234-238 | a platform has an entry exactly when one of its groups holds a displayed slave |
| Slaves.RollupValue | src/server.py:241-249 | the entry is the fail rate of success/retry/total summed over all slaves of its last group with a displayed slave |
| Slaves.RollupIncludesIneligible | src/server.py:241-249 | a hidden slave's jobs are added into its platform's rate (3 + 20 == 23 jobs) |
| Slaves.PlatformSplitAroundAnother | src/server.py:230-231 | sorted "a-1", "a-1-1", "a-2" form three groups, with platform "a" split in two |
| Slaves.SplitPlatformRate | src/server.py:231-249 | in the split example with only "a-1" displayed, platform "a" is the one entry and its rate is "a-1"'s alone; "a-2"'s jobs are left out |
| Slaves.RemoveHidden | src/server.py:252-254 | the deletion loop keeps exactly the slaves of slave_list, with their entries unchanged |
| Slaves.ShownAreDisplayed | src/server.py:216-254 | what survives deletion is exactly the slaves with total > jobs, each with its counters and its fail rate |
| Slaves.RunSlavesQuery | src/server.py:171-259 | no rows gives None; otherwise jobs, the displayed slaves with their rates, the platform rates over the sorted groups, and the date range |
| Revisions.CSetSummary.constructor | src/server.py:17-23 | a new CSetSummary keeps its changeset id and starts with four empty Counters |
| Revisions.RecordRow | src/server.py:300-319 | one row increments the CSetSummary counter of its colour and test type, and test_summaries by the same colour; the id is kept |
| Revisions.SummariseCSet | src/server.py:290-321 | a fresh CSetSummary holds the changeset's counts; test_summaries, their key order and the dates move on by its rows |
| Revisions.SummariseAll | src/server.py:283-321 | one summary per changeset in order, each with its id and counts, plus the global test_summaries, key order and dates |
| Revisions.TypesSeen | src/server.py:301 | the key list is distinct and holds exactly the keys of test_summaries |
| Revisions.TestSummariesKeys | src/server.py:301 | a test type has a summary exactly when some row has it, whether the row is coloured or usercancel, and in the corrected model also when its token is unknown (as written such a row raises NameError first) |
| Revisions.TestSummariesCounts | src/server.py:300-314 | a test type's summary counts its rows colour by colour |
| Revisions.CSetCountsExact | src/server.py:300-314 | each changeset Counter holds exactly the rows of that colour and test type; as a key exactly when it has any |
| Revisions.GlobalIsSumOfCSets | src/server.py:290-321 | per test type and colour, the global count is the sum of the changeset Counters |
| Revisions.UncolouredChangesNothing | src/server.py:315-318 | a usercancel token, and in the corrected model an unknown token, changes no counter but registers its test type with zeros; as written an unknown token raises NameError instead (see Findings) |
| Revisions.TestTypes | src/server.py:326-328 | the test types in ascending order, the same ones, followed by "total" and "percentage" |
| Revisions.SumTotals | src/server.py:334-335 | total.update over the keys is empty for no keys, else the four colour sums |
| Revisions.TotalsMatch | src/server.py:334-335 | the sums over the test summaries are the colour counts of all rows |
| Revisions.TotalCounter | src/server.py:331-336 | the total Counter is empty exactly when there are no rows, and test_count is the number of coloured rows |
| Revisions.ColouredIsSize | src/server.py:336 | the test count is the number of coloured rows |
| Revisions.ComputePercentages | src/server.py:338-339 | a non-empty Counter with test_count 0 raises ZeroDivisionError; otherwise each key's share times 100 |
| Revisions.ComputeTotals | src/server.py:331-339 | raises exactly when test types exist but no row is coloured; otherwise the total Counter and the percentages of the colour counts |
| Revisions.PercentagesSumTo100 | src/server.py:338-339 | with a coloured row the four percentages add up to 100 |
| Revisions.PlatformFailRate | src/server.py:341-343 | the rates are calculate_fail_rate(green, blue, number of coloured rows) |
| Revisions.PlatformFailRatesBounded | src/server.py:341-343 | those rates lie in [0, 100], and failRate <= failRateWithRetries |
| Revisions.ByTestEntries | src/server.py:345-346 | byTest holds every test summary, with "total" and "percentage" overwritten by the two aggregates |
| Revisions.Assemble | src/server.py:326-352 | the report's testTypes, byRevision, byTest, failRates and dates, from the summaries and the colour counts |
| Revisions.RunPlatformQuery | src/server.py:283-352 | raises ZeroDivisionError exactly when rows exist but none is coloured; otherwise the full report over all changesets' rows |
| Revisions.TestOutcomeAsWritten | src/server.py:303-318 | as written, an unrecognised token raises NameError and every other token is classified as in the corrected chain |
| Revisions.CSetCountsAsWritten | src/server.py:300-318 | the changeset fold as written, where the first unknown token aborts with NameError; AsWrittenFailsOnUnknown states when it fails and what it gives otherwise |
| Revisions.AsWrittenFailsOnUnknown | src/server.py:315-318 | as written, a changeset fails exactly when it has an unknown token; otherwise it agrees with the corrected fold |
| Revisions.UnknownTokenRaises | src/server.py:317-318 | a "skipped" row raises NameError as written |
| Revisions.ColourCountsExample | src/server.py:303-308 | three successes and one testfailed of a test type give green 3 and orange 1 |
| Seta.GroupFailures | src/server.py:395-399 | a bug id is a key exactly when a row carries it, and its list holds its rows' triples in row order |
| Seta.RowsForMembers | src/server.py:397-399 | a triple is in a bug's list exactly when a row of that bug carries it |
| Seta.RowsForLength | src/server.py:397-399 | a bug's list holds one triple per row of that bug, and is non-empty exactly for the keys |
| Seta.GroupFailuresExample | src/server.py:395-399 | rows of bug 1 around a row of bug 2 stay in order under bug 1 |

## Left out

- HTTP routing, the JSON response wrapper, the 404 handler and static file
  serving (src/server.py:41-54, 404-420) are outside the model. The reports
  are Dafny values, for example `Slaves.SlavesReport`.
- The database connection, the cursors and the SQL text are outside the
  model. The fetched rows are inputs.
- The route `run_results_day_flot_query` (src/server.py:129-163) is not
  modelled. It is a loop of SQL queries plus calendar.timegm.
- The clock and date formatting:
  - `datetime.now()` is the parameter `now`.
  - Timestamps are whole minutes, and `.date()` is a day number by integer
    division.
  - `strptime` and its three masks are an abstract parser parameter
    `parse`.
  - `strftime` in `get_date_range` is left out, so the range holds the raw
    timestamps.
- FailRate.CalculateFailRate: `round(..., 2)` and float division are not
  modelled, because the rates are exact reals.
- Revisions.ComputePercentages: `round(..., 2)` and float division are not
  modelled, because the percentages are exact reals.
- `app.logger.debug` calls and the disclaimer text are not modelled. The
  disclaimer is represented by the number `jobs` it formats.
- Python dictionary iteration order and JSON key order are not modelled.
  Key lists are kept in first-insertion order. Only membership and the
  sorted orders carry meaning for the code.
- Seta.GroupFailures: bug ids are strings. The request parameters, their
  defaults and the `jobtype` conversion (src/server.py:358-372) build the
  SQL query only, so they are not modelled.
- Revisions.RunPlatformQuery: this is the corrected model, in which an
  unknown token counts nothing. The code as written raises NameError on such
  a token. That behaviour is modelled separately; see Findings.

## Findings

| source | as written | input that shows it | evidently intended | confidence | as-written member | corrected member |
|---|---|---|---|---|---|---|
| src/server.py:318 | the log message for an unrecognised result formats the undefined name `result`, so the request raises NameError | a changeset with one row whose result is "skipped" | log the token `res` and count nothing for the row | high (not executed) | Revisions.AsWrittenFailsOnUnknown | Revisions.UncolouredChangesNothing |
