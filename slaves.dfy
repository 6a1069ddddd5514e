/**
 * The slave-health report of run_slaves_query over already fetched rows
 * (slave, result, date) ordered by date: per-slave counters, the volume
 * threshold for display, per-platform fail rates, and clean-up of the
 * slaves that are not displayed.
 */
module Slaves {
  import opened Wrappers
  import opened Outcomes
  import opened FailRate
  import opened StringOrder
  import Dates

  datatype SlaveRow = SlaveRow(slave: string, result: string, date: int)

  /** A slave's counter dictionary; sfr is attached only to displayed slaves. */
  datatype Counters = Counters(fail: nat, retry: nat, infra: nat, success: nat, total: nat,
                               jobsSinceLastSuccess: nat, sfr: Option<FailRates>)

  /** summary.copy(): every counter at zero. */
  const Fresh := Counters(0, 0, 0, 0, 0, 0, None)

  /** What one row does to its slave's counters. */
  function Step(c: Counters, result: string): Counters
  {
    var c := c.(jobsSinceLastSuccess := c.jobsSinceLastSuccess + 1);
    var c := match SlaveClassOf(result)
      case Fail => c.(fail := c.fail + 1)
      case Retry => c.(retry := c.retry + 1)
      case Success => c.(success := c.success + 1, jobsSinceLastSuccess := 0)
      case Infra => c.(infra := c.infra + 1)
      case Unclassified => c;
    c.(total := c.total + 1)
  }

  /** Each counter of a row's step grows by one exactly when the token is its own. */
  lemma StepCounts(c: Counters, result: string)
    ensures Step(c, result).total == c.total + 1
    ensures Step(c, result).fail == c.fail + (if result == "testfailed" then 1 else 0)
    ensures Step(c, result).retry == c.retry + (if result == "retry" then 1 else 0)
    ensures Step(c, result).success == c.success + (if result == "success" then 1 else 0)
    ensures Step(c, result).infra == c.infra + (if result == "busted" then 1 else 0) + (if result == "exception" then 1 else 0)
    ensures Step(c, result).jobsSinceLastSuccess == if result == "success" then 0 else c.jobsSinceLastSuccess + 1
    ensures Step(c, result).sfr == c.sfr
  {
  }

  /** The counter dictionary after folding the rows in order. */
  function Tally(rows: seq<SlaveRow>): map<string, Counters>
  {
    if |rows| == 0 then map[]
    else
      var data := Tally(rows[..|rows| - 1]);
      var row := rows[|rows| - 1];
      data[row.slave := Step(if row.slave in data then data[row.slave] else Fresh, row.result)]
  }

  /** The dictionary's keys, in the order the fold first meets them. */
  function Names(rows: seq<SlaveRow>): (names: seq<string>)
    ensures Distinct(names)
    ensures forall s :: s in names <==> s in Tally(rows)
  {
    if |rows| == 0 then []
    else
      var prev := Names(rows[..|rows| - 1]);
      var s := rows[|rows| - 1].slave;
      if s in prev then prev else prev + [s]
  }

  /** The date column, in row order. */
  function DatesOf(rows: seq<SlaveRow>): (dates: seq<int>)
    ensures |dates| == |rows| && forall k :: 0 <= k < |rows| ==> dates[k] == rows[k].date
  {
    seq(|rows|, k requires 0 <= k < |rows| => rows[k].date)
  }

  /** The rows of slave s. */
  function RowsOf(rows: seq<SlaveRow>, s: string): nat
  {
    if |rows| == 0 then 0
    else RowsOf(rows[..|rows| - 1], s) + (if rows[|rows| - 1].slave == s then 1 else 0)
  }

  /** The rows of slave s whose result is the token result. */
  function ResultsOf(rows: seq<SlaveRow>, s: string, result: string): nat
  {
    if |rows| == 0 then 0
    else ResultsOf(rows[..|rows| - 1], s, result)
         + (if rows[|rows| - 1].slave == s && rows[|rows| - 1].result == result then 1 else 0)
  }

  predicate IsSuccessOf(row: SlaveRow, s: string)
  {
    row.slave == s && row.result == "success"
  }

  /** The five tokens the slave query selects. */
  predicate Selected(result: string)
  {
    result == "retry" || result == "testfailed" || result == "success"
    || result == "busted" || result == "exception"
  }

  // ---- Counters -------------------------------------------------------------

  /** A slave has counters exactly when it has a row. */
  lemma {:induction false} TallyKeys(rows: seq<SlaveRow>, s: string)
    ensures s in Tally(rows) <==> RowsOf(rows, s) > 0
    ensures RowsOf(rows, s) > 0 <==> exists k :: 0 <= k < |rows| && rows[k].slave == s
  {
    if |rows| > 0 {
      var prefix := rows[..|rows| - 1];
      TallyKeys(prefix, s);
      if exists k :: 0 <= k < |prefix| && prefix[k].slave == s {
        var k :| 0 <= k < |prefix| && prefix[k].slave == s;
        assert rows[k].slave == s;
      }
      if exists k :: 0 <= k < |rows| && rows[k].slave == s {
        var k :| 0 <= k < |rows| && rows[k].slave == s;
        if k < |prefix| {
          assert prefix[k].slave == s;
        }
      }
    }
  }

  /**
   * Every row counts towards its slave's total; each class counter counts
   * the rows of its tokens; sfr is not yet attached.
   */
  lemma {:induction false} TallyCounts(rows: seq<SlaveRow>, s: string)
    requires s in Tally(rows)
    ensures Tally(rows)[s].total == RowsOf(rows, s)
    ensures Tally(rows)[s].fail == ResultsOf(rows, s, "testfailed")
    ensures Tally(rows)[s].retry == ResultsOf(rows, s, "retry")
    ensures Tally(rows)[s].success == ResultsOf(rows, s, "success")
    ensures Tally(rows)[s].infra == ResultsOf(rows, s, "busted") + ResultsOf(rows, s, "exception")
    ensures Tally(rows)[s].sfr == None
  {
    var prefix, last := rows[..|rows| - 1], rows[|rows| - 1];
    if last.slave == s {
      StepCounts(if s in Tally(prefix) then Tally(prefix)[s] else Fresh, last.result);
    }
    if s in Tally(prefix) {
      TallyCounts(prefix, s);
    } else {
      TallyKeys(prefix, s);
      NoRowsNoResults(prefix, s, "testfailed");
      NoRowsNoResults(prefix, s, "retry");
      NoRowsNoResults(prefix, s, "success");
      NoRowsNoResults(prefix, s, "busted");
      NoRowsNoResults(prefix, s, "exception");
    }
  }

  lemma {:induction false} NoRowsNoResults(rows: seq<SlaveRow>, s: string, result: string)
    requires RowsOf(rows, s) == 0
    ensures ResultsOf(rows, s, result) == 0
  {
    if |rows| > 0 {
      NoRowsNoResults(rows[..|rows| - 1], s, result);
    }
  }

  /** When every row carries one of the five selected tokens, total == fail + retry + infra + success. */
  lemma {:induction false} TotalIsSumOfClasses(rows: seq<SlaveRow>, s: string)
    requires forall k :: 0 <= k < |rows| ==> Selected(rows[k].result)
    requires s in Tally(rows)
    ensures var c := Tally(rows)[s]; c.total == c.fail + c.retry + c.infra + c.success
  {
    var prefix := rows[..|rows| - 1];
    if s in Tally(prefix) {
      TotalIsSumOfClasses(prefix, s);
    }
    assert Selected(rows[|rows| - 1].result);
  }

  /**
   * jobs_since_last_success counts the slave's rows after its last success:
   * j is just past that success (or 0 when there is none).
   */
  lemma {:induction false} SinceLastSuccess(rows: seq<SlaveRow>, s: string, j: nat)
    requires s in Tally(rows)
    requires j <= |rows|
    requires j == 0 || IsSuccessOf(rows[j - 1], s)
    requires forall k :: j <= k < |rows| ==> !IsSuccessOf(rows[k], s)
    ensures Tally(rows)[s].jobsSinceLastSuccess == RowsOf(rows[j..], s)
  {
    var n := |rows|;
    var prefix := rows[..n - 1];
    var last := rows[n - 1];
    if last.slave == s {
      TallyLast(rows);
      StepCounts(CountersOf(prefix, s), last.result);
    } else {
      TallyOther(rows, s);
    }
    if j == n {
      assert IsSuccessOf(last, s);
      assert rows[j..] == [];
    } else {
      assert !IsSuccessOf(last, s);
      SuffixStep(rows, s, j);
      if last.slave != s || s in Tally(prefix) {
        SinceLastSuccess(prefix, s, j);
      } else {
        TallyKeys(prefix, s);
        SuffixRows(prefix, s, j);
      }
    }
  }

  /** A slave's counters so far, or the fresh copy setdefault would insert. */
  function CountersOf(rows: seq<SlaveRow>, s: string): Counters
  {
    if s in Tally(rows) then Tally(rows)[s] else Fresh
  }

  /** The last row steps its own slave's counters. */
  lemma TallyLast(rows: seq<SlaveRow>)
    requires |rows| > 0
    ensures var last := rows[|rows| - 1];
            last.slave in Tally(rows) && Tally(rows)[last.slave] == Step(CountersOf(rows[..|rows| - 1], last.slave), last.result)
  {
  }

  /** The last row leaves every other slave's counters alone. */
  lemma TallyOther(rows: seq<SlaveRow>, s: string)
    requires |rows| > 0 && rows[|rows| - 1].slave != s
    ensures (s in Tally(rows)) == (s in Tally(rows[..|rows| - 1]))
    ensures s in Tally(rows) ==> Tally(rows)[s] == Tally(rows[..|rows| - 1])[s]
  {
  }

  /** A suffix's count of a slave's rows, one row further. */
  lemma SuffixStep(rows: seq<SlaveRow>, s: string, j: nat)
    requires j < |rows|
    ensures RowsOf(rows[j..], s) == RowsOf(rows[..|rows| - 1][j..], s) + (if rows[|rows| - 1].slave == s then 1 else 0)
  {
    assert rows[j..][..|rows| - j - 1] == rows[..|rows| - 1][j..];
  }

  /** A suffix holds no more of a slave's rows than the whole. */
  lemma {:induction false} SuffixRows(rows: seq<SlaveRow>, s: string, j: nat)
    requires j <= |rows|
    ensures RowsOf(rows[j..], s) <= RowsOf(rows, s)
  {
    if j < |rows| {
      var n := |rows|;
      assert rows[j..][..n - j - 1] == rows[..n - 1][j..];
      SuffixRows(rows[..n - 1], s, j);
    } else {
      assert rows[j..] == [];
    }
  }

  /** success, testfailed, success: the last job succeeded, so the counter is back at 0. */
  lemma SinceLastSuccessExample(s: string)
    ensures var rows := [SlaveRow(s, "success", 1), SlaveRow(s, "testfailed", 2), SlaveRow(s, "success", 3)];
            Tally(rows)[s].jobsSinceLastSuccess == 0 && Tally(rows)[s].total == 3
  {
    var rows := [SlaveRow(s, "success", 1), SlaveRow(s, "testfailed", 2), SlaveRow(s, "success", 3)];
    assert rows[..2] == [SlaveRow(s, "success", 1), SlaveRow(s, "testfailed", 2)];
    assert rows[..2][..1] == [SlaveRow(s, "success", 1)];
    assert rows[..2][..1][..0] == [];
    assert Tally(rows[..1])[s] == Counters(0, 0, 0, 1, 1, 0, None);
    assert Tally(rows[..2])[s] == Counters(1, 0, 0, 1, 2, 1, None);
  }

  // ---- The display threshold ------------------------------------------------

  /** Python 2's round(x): halves go away from zero. */
  function RoundHalfAwayFromZero(x: real): int
  {
    if x >= 0.0 then (x + 0.5).Floor else -((0.5 - x).Floor)
  }

  /**
   * jobs: a slave must have run more jobs than this to be displayed. The
   * product is exact here and a float in Python; both round alike, since its
   * fractional part is a multiple of 0.2 and never near a half.
   */
  function Threshold(days: int): int
  {
    if days <= 8 then 5 else RoundHalfAwayFromZero(days as real * 0.4)
  }

  /** The threshold in integer arithmetic: round(0.4 * days) == (4 * days + 5) div 10. */
  lemma ThresholdInIntegers(days: int)
    ensures Threshold(days) == if days <= 8 then 5 else (4 * days + 5) / 10
  {
    if days > 8 {
      var n := 4 * days + 5;
      var q := n / 10;
      assert days as real * 0.4 + 0.5 == n as real / 10.0;
      assert q as real <= n as real / 10.0 < q as real + 1.0 by {
        assert n == 10 * q + n % 10;
      }
    }
  }

  /** 0.4 * days is never a half, so the rounding rule for halves never matters. */
  lemma NoHalfCase(days: int, k: int)
    ensures days as real * 0.4 != k as real + 0.5
  {
    var m := 2 * days - 5 * k;
    assert 4 * days - 10 * k == 2 * m;
    assert 4 * days != 10 * k + 5;
    assert (days as real * 0.4) * 10.0 == (4 * days) as real;
    assert (k as real + 0.5) * 10.0 == (10 * k + 5) as real;
  }

  /** slave_list as a set: the slaves with more than jobs jobs. */
  function EligibleSet(data: map<string, Counters>, jobs: int): (e: set<string>)
    ensures forall s :: s in e <==> s in data && data[s].total > jobs
  {
    set s | s in data && data[s].total > jobs
  }

  /** slave_list: the comprehension over the dictionary's keys. */
  function EligibleNames(names: seq<string>, data: map<string, Counters>, jobs: int): (r: seq<string>)
    requires Distinct(names)
    ensures Distinct(r)
    ensures forall s :: s in r <==> s in names && s in data && data[s].total > jobs
  {
    if |names| == 0 then []
    else
      var rest := EligibleNames(names[..|names| - 1], data, jobs);
      var s := names[|names| - 1];
      assert s !in names[..|names| - 1];
      if s in data && data[s].total > jobs then rest + [s] else rest
  }

  /** A displayed slave's dictionary with its fail rate attached. */
  function WithRate(c: Counters): Counters
  {
    c.(sfr := Some(FailRateOf(c.success, c.retry, c.total)))
  }

  // ---- Platform grouping ----------------------------------------------------

  /** The index of the last '-' in name, or -1. */
  function LastDash(name: string): (i: int)
    ensures -1 <= i < |name|
    ensures i >= 0 ==> name[i] == '-'
    ensures forall k :: i < k < |name| ==> name[k] != '-'
  {
    if |name| == 0 then -1
    else if name[|name| - 1] == '-' then |name| - 1
    else LastDash(name[..|name| - 1])
  }

  /** name.rsplit('-', 1)[0]: the slave name without its last '-' and what follows it. */
  function PlatformKey(name: string): (key: string)
    ensures || ('-' !in name && key == name)
            || (|key| < |name| && name[..|key|] == key && name[|key|] == '-' && '-' !in name[|key| + 1..])
  {
    var i := LastDash(name);
    if i < 0 then name else name[..i]
  }

  /** One group produced by itertools.groupby: a key and a run of consecutive names sharing it. */
  datatype Run = Run(key: string, members: seq<string>)

  function Flatten(runs: seq<Run>): seq<string>
  {
    if |runs| == 0 then [] else runs[0].members + Flatten(runs[1..])
  }

  lemma FlattenCons(run: Run, runs: seq<Run>)
    ensures Flatten([run] + runs) == run.members + Flatten(runs)
  {
    assert ([run] + runs)[1..] == runs;
  }

  /** One step of groupby read from the right: name joins the first run when it has the same key. */
  function Prepend(key: string, name: string, runs: seq<Run>): (r: seq<Run>)
    ensures |r| > 0 && r[0].key == key
  {
    if |runs| > 0 && runs[0].key == key then
      [Run(key, [name] + runs[0].members)] + runs[1..]
    else
      [Run(key, [name])] + runs
  }

  /** groupby(names, PlatformKey): maximal runs of consecutive names with the same key. */
  function GroupRuns(names: seq<string>): (runs: seq<Run>)
    ensures |names| > 0 ==> |runs| > 0 && runs[0].key == PlatformKey(names[0])
  {
    if |names| == 0 then []
    else Prepend(PlatformKey(names[0]), names[0], GroupRuns(names[1..]))
  }

  /** A run is non-empty and all its names share its key. */
  predicate IsGroup(run: Run)
  {
    |run.members| > 0 && forall m :: m in run.members ==> PlatformKey(m) == run.key
  }

  predicate WellGrouped(runs: seq<Run>)
  {
    && (forall i :: 0 <= i < |runs| ==> IsGroup(runs[i]))
    && (forall i :: 0 < i < |runs| ==> runs[i - 1].key != runs[i].key)
  }

  lemma PrependFlatten(key: string, name: string, runs: seq<Run>)
    ensures Flatten(Prepend(key, name, runs)) == [name] + Flatten(runs)
  {
    if |runs| > 0 && runs[0].key == key {
      var first := Run(key, [name] + runs[0].members);
      assert runs == [runs[0]] + runs[1..];
      FlattenCons(first, runs[1..]);
      FlattenCons(runs[0], runs[1..]);
      var tail := Flatten(runs[1..]);
      assert ([name] + runs[0].members) + tail == [name] + (runs[0].members + tail);
    } else {
      FlattenCons(Run(key, [name]), runs);
    }
  }

  lemma PrependWellGrouped(key: string, name: string, runs: seq<Run>)
    requires WellGrouped(runs) && PlatformKey(name) == key
    ensures WellGrouped(Prepend(key, name, runs))
  {
    var r := Prepend(key, name, runs);
    if |runs| > 0 && runs[0].key == key {
      assert IsGroup(runs[0]);
      assert IsGroup(r[0]);
      assert forall i :: 1 <= i < |r| ==> r[i] == runs[i];
    } else {
      assert forall i :: 1 <= i < |r| ==> r[i] == runs[i - 1];
    }
  }

  /** The runs cover the names, in order. */
  lemma {:induction false} GroupRunsCover(names: seq<string>)
    ensures Flatten(GroupRuns(names)) == names
  {
    if |names| > 0 {
      GroupRunsCover(names[1..]);
      PrependFlatten(PlatformKey(names[0]), names[0], GroupRuns(names[1..]));
      assert names == [names[0]] + names[1..];
    }
  }

  /** Each run is non-empty and shares one key; neighbouring runs have different keys. */
  lemma {:induction false} GroupRunsWellGrouped(names: seq<string>)
    ensures WellGrouped(GroupRuns(names))
  {
    if |names| > 0 {
      GroupRunsWellGrouped(names[1..]);
      PrependWellGrouped(PlatformKey(names[0]), names[0], GroupRuns(names[1..]));
    }
  }

  /** The success, retry and total sums of a group. */
  datatype Sums = Sums(success: nat, retry: nat, total: nat)

  /** reduce(+, [data[slave][label] for slave in members]) for the three labels. */
  function SumCounts(data: map<string, Counters>, members: seq<string>): Sums
  {
    if |members| == 0 then Sums(0, 0, 0)
    else
      var rest := SumCounts(data, members[..|members| - 1]);
      var c := if members[|members| - 1] in data then data[members[|members| - 1]] else Fresh;
      Sums(rest.success + c.success, rest.retry + c.retry, rest.total + c.total)
  }

  predicate AnyEligible(members: seq<string>, eligible: set<string>)
  {
    exists m :: m in members && m in eligible
  }

  /** The platforms dictionary after the groupby loop over runs. */
  function Rollup(data: map<string, Counters>, eligible: set<string>, runs: seq<Run>): map<string, FailRates>
  {
    if |runs| == 0 then map[]
    else
      var platforms := Rollup(data, eligible, runs[..|runs| - 1]);
      var run := runs[|runs| - 1];
      if AnyEligible(run.members, eligible) then
        var sums := SumCounts(data, run.members);
        platforms[run.key := FailRateOf(sums.success, sums.retry, sums.total)]
      else platforms
  }

  /** A platform has an entry exactly when one of its runs holds a displayed slave. */
  lemma {:induction false} RollupKeys(data: map<string, Counters>, eligible: set<string>, runs: seq<Run>, p: string)
    ensures (p in Rollup(data, eligible, runs))
        <==> exists i :: 0 <= i < |runs| && runs[i].key == p && AnyEligible(runs[i].members, eligible)
  {
    if |runs| > 0 {
      var prefix := runs[..|runs| - 1];
      RollupKeys(data, eligible, prefix, p);
      if exists i :: 0 <= i < |prefix| && prefix[i].key == p && AnyEligible(prefix[i].members, eligible) {
        var i :| 0 <= i < |prefix| && prefix[i].key == p && AnyEligible(prefix[i].members, eligible);
        assert runs[i] == prefix[i];
      }
      if exists i :: 0 <= i < |runs| && runs[i].key == p && AnyEligible(runs[i].members, eligible) {
        var i :| 0 <= i < |runs| && runs[i].key == p && AnyEligible(runs[i].members, eligible);
        if i < |prefix| {
          assert prefix[i] == runs[i];
        }
      }
    }
  }

  /**
   * A platform's rates come from the sums over ALL slaves of its last run
   * that holds a displayed slave, displayed or not.
   */
  lemma {:induction false} RollupValue(data: map<string, Counters>, eligible: set<string>, runs: seq<Run>, i: nat)
    requires i < |runs| && AnyEligible(runs[i].members, eligible)
    requires forall j :: i < j < |runs| && runs[j].key == runs[i].key ==> !AnyEligible(runs[j].members, eligible)
    ensures runs[i].key in Rollup(data, eligible, runs)
    ensures var sums := SumCounts(data, runs[i].members);
            Rollup(data, eligible, runs)[runs[i].key] == FailRateOf(sums.success, sums.retry, sums.total)
  {
    var prefix := runs[..|runs| - 1];
    if i < |runs| - 1 {
      assert prefix[i] == runs[i];
      RollupValue(data, eligible, prefix, i);
    }
  }

  /** Sums only look at the success, retry and total counters. */
  lemma {:induction false} SumsAgree(a: map<string, Counters>, b: map<string, Counters>, members: seq<string>)
    requires forall m :: m in members ==> (m in a <==> m in b)
    requires forall m :: m in members && m in a ==>
               a[m].success == b[m].success && a[m].retry == b[m].retry && a[m].total == b[m].total
    ensures SumCounts(a, members) == SumCounts(b, members)
  {
    if |members| > 0 {
      SumsAgree(a, b, members[..|members| - 1]);
    }
  }

  /** Rollup only depends on the sums of each run. */
  lemma {:induction false} RollupSameSums(a: map<string, Counters>, b: map<string, Counters>, eligible: set<string>, runs: seq<Run>)
    requires forall run :: run in runs ==> SumCounts(a, run.members) == SumCounts(b, run.members)
    ensures Rollup(a, eligible, runs) == Rollup(b, eligible, runs)
  {
    if |runs| > 0 {
      RollupSameSums(a, b, eligible, runs[..|runs| - 1]);
      assert runs[|runs| - 1] in runs;
    }
  }

  /** Two slaves of one platform: the rollup adds the ineligible one's jobs too (3 + 20 == 23). */
  lemma RollupIncludesIneligible()
    ensures var a1 := Counters(0, 0, 0, 3, 3, 0, None);
            var a2 := Counters(4, 1, 1, 14, 20, 0, None);
            var data := map["A-1" := a1, "A-2" := a2];
            var runs := GroupRuns(["A-1", "A-2"]);
            && EligibleSet(data, 5) == {"A-2"}
            && runs == [Run("A", ["A-1", "A-2"])]
            && Rollup(data, {"A-2"}, runs)["A"] == FailRateOf(17, 1, 23)
  {
    var a1 := Counters(0, 0, 0, 3, 3, 0, None);
    var a2 := Counters(4, 1, 1, 14, 20, 0, None);
    var data := map["A-1" := a1, "A-2" := a2];
    IneligibleExampleRuns();
    var runs := GroupRuns(["A-1", "A-2"]);
    assert runs[..0] == [];
    assert AnyEligible(runs[0].members, {"A-2"}) by {
      assert runs[0].members[1] == "A-2";
    }
    IneligibleExampleSums(data);
    assert Rollup(data, {"A-2"}, runs[..0]) == map[];
    assert EligibleSet(data, 5) == {"A-2"};
  }

  /** The two slaves of the example form one run. */
  lemma IneligibleExampleRuns()
    ensures GroupRuns(["A-1", "A-2"]) == [Run("A", ["A-1", "A-2"])]
  {
    assert PlatformKey("A-1") == "A" && PlatformKey("A-2") == "A" by {
      assert LastDash("A-1") == 1;
      assert LastDash("A-2") == 1;
    }
    assert ["A-1", "A-2"][1..] == ["A-2"];
    assert ["A-2"][1..] == [];
    assert GroupRuns(["A-2"]) == [Run("A", ["A-2"])];
    assert ["A-1"] + ["A-2"] == ["A-1", "A-2"];
  }

  /** The sums over the run of the example include the ineligible slave. */
  lemma IneligibleExampleSums(data: map<string, Counters>)
    requires data == map["A-1" := Counters(0, 0, 0, 3, 3, 0, None), "A-2" := Counters(4, 1, 1, 14, 20, 0, None)]
    ensures SumCounts(data, ["A-1", "A-2"]) == Sums(17, 1, 23)
  {
    assert ["A-1", "A-2"][..1] == ["A-1"];
    assert ["A-1"][..0] == [];
    assert SumCounts(data, ["A-1"]) == Sums(3, 0, 3);
  }

  /**
   * groupby only joins consecutive names: "a-1" < "a-1-1" < "a-2" splits the
   * platform "a" into two runs around "a-1-1". Its entry then comes from
   * the last run that holds a displayed slave (RollupValue), and the other
   * run's slaves are missing from its rate (SplitPlatformRate).
   */
  lemma PlatformSplitAroundAnother()
    ensures Sorted(["a-1", "a-1-1", "a-2"])
    ensures GroupRuns(["a-1", "a-1-1", "a-2"]) == [Run("a", ["a-1"]), Run("a-1", ["a-1-1"]), Run("a", ["a-2"])]
  {
    SplitExampleKeys();
    assert ["a-1", "a-1-1", "a-2"][1..] == ["a-1-1", "a-2"];
    assert ["a-1-1", "a-2"][1..] == ["a-2"];
    assert ["a-2"][1..] == [];
    assert GroupRuns(["a-2"]) == [Run("a", ["a-2"])];
    assert GroupRuns(["a-1-1", "a-2"]) == [Run("a-1", ["a-1-1"]), Run("a", ["a-2"])];
    SplitExampleOrdered();
  }

  /**
   * In the split example with only "a-1" displayed, platform "a" gets the
   * rate of the first run alone: the later run has no displayed slave and
   * adds no entry, so "a-2"'s jobs are left out.
   */
  lemma SplitPlatformRate()
    ensures var data := map["a-1" := Counters(1, 0, 0, 9, 10, 0, None), "a-1-1" := Counters(0, 0, 0, 1, 1, 0, None),
                            "a-2" := Counters(3, 0, 0, 0, 3, 0, None)];
            var platforms := Rollup(data, {"a-1"}, GroupRuns(["a-1", "a-1-1", "a-2"]));
            && platforms.Keys == {"a"}
            && platforms["a"] == FailRateOf(9, 0, 10)
  {
    var data := map["a-1" := Counters(1, 0, 0, 9, 10, 0, None), "a-1-1" := Counters(0, 0, 0, 1, 1, 0, None),
                     "a-2" := Counters(3, 0, 0, 0, 3, 0, None)];
    PlatformSplitAroundAnother();
    var runs := [Run("a", ["a-1"]), Run("a-1", ["a-1-1"]), Run("a", ["a-2"])];
    assert runs[..2] == [Run("a", ["a-1"]), Run("a-1", ["a-1-1"])];
    assert runs[..2][..1] == [Run("a", ["a-1"])];
    assert runs[..2][..1][..0] == [];
    assert AnyEligible(["a-1"], {"a-1"}) by {
      assert ["a-1"][0] == "a-1";
    }
    assert !AnyEligible(["a-1-1"], {"a-1"});
    assert !AnyEligible(["a-2"], {"a-1"});
    assert ["a-1"][..0] == [];
    assert SumCounts(data, ["a-1"]) == Sums(9, 0, 10);
    assert Rollup(data, {"a-1"}, [Run("a", ["a-1"])]) == map["a" := FailRateOf(9, 0, 10)];
  }

  /** The platforms of the three names of the example. */
  lemma SplitExampleKeys()
    ensures PlatformKey("a-1") == "a" && PlatformKey("a-2") == "a" && PlatformKey("a-1-1") == "a-1"
  {
    assert LastDash("a-1") == 1;
    assert LastDash("a-2") == 1;
    assert LastDash("a-1-1") == 3;
  }

  /** The three names of the example are in sorted order. */
  lemma SplitExampleOrdered()
    ensures Less("a-1", "a-1-1") && Less("a-1-1", "a-2") && Less("a-1", "a-2")
  {
    assert Less("a-1", "a-1-1") by { assert "a-1"[1..] == "-1"; assert "a-1-1"[1..] == "-1-1"; assert "-1"[1..] == "1"; assert "-1-1"[1..] == "1-1"; assert "1"[1..] == ""; }
    assert Less("a-1-1", "a-2") by { assert "a-1-1"[1..] == "-1-1"; assert "a-2"[1..] == "-2"; assert "-1-1"[1..] == "1-1"; assert "-2"[1..] == "2"; }
    assert Less("a-1", "a-2") by { assert "a-1"[1..] == "-1"; assert "a-2"[1..] == "-2"; assert "-1"[1..] == "1"; assert "-2"[1..] == "2"; }
  }

  // ---- The report -----------------------------------------------------------

  /** The JSON object of the slave report; jobs is the number quoted in the disclaimer. */
  datatype SlavesReport = SlavesReport(slaves: map<string, Counters>, platforms: map<string, FailRates>,
                                       dates: Option<Dates.DateRange>, jobs: int)

  /** The body of the first loop for one row: the counter updates of src/server.py:202-212. */
  method BumpCounters(c0: Counters, result: string) returns (c: Counters)
    ensures c == Step(c0, result)
  {
    c := c0.(jobsSinceLastSuccess := c0.jobsSinceLastSuccess + 1);
    if result == "testfailed" {
      c := c.(fail := c.fail + 1);
    } else if result == "retry" {
      c := c.(retry := c.retry + 1);
    } else if result == "success" {
      c := c.(success := c.success + 1);
      c := c.(jobsSinceLastSuccess := 0);
    } else if result == "busted" || result == "exception" {
      c := c.(infra := c.infra + 1);
    }
    c := c.(total := c.total + 1);
  }

  /** The first loop of run_slaves_query: setdefault, the counter updates, and the dates list. */
  method FoldRows(rows: seq<SlaveRow>) returns (data: map<string, Counters>, names: seq<string>, dates: seq<int>)
    ensures data == Tally(rows) && names == Names(rows) && dates == DatesOf(rows)
  {
    data, names, dates := map[], [], [];
    for i := 0 to |rows|
      invariant data == Tally(rows[..i])
      invariant names == Names(rows[..i])
      invariant dates == DatesOf(rows[..i])
    {
      FoldRowsStep(rows, i);
      var row := rows[i];
      var name := row.slave;
      var counters := Fresh;
      if name in data {
        counters := data[name];
      } else {
        names := names + [name];
      }
      var c := BumpCounters(counters, row.result);
      data := data[name := c];
      dates := dates + [row.date];
    }
    assert rows[..|rows|] == rows;
  }

  /** The dictionary, its key order and the dates, one row further. */
  lemma FoldRowsStep(rows: seq<SlaveRow>, i: int)
    requires 0 <= i < |rows|
    ensures var data := Tally(rows[..i]);
            var name := rows[i].slave;
            Tally(rows[..i + 1]) == data[name := Step(if name in data then data[name] else Fresh, rows[i].result)]
    ensures Names(rows[..i + 1]) ==
              if rows[i].slave in Tally(rows[..i]) then Names(rows[..i]) else Names(rows[..i]) + [rows[i].slave]
    ensures DatesOf(rows[..i + 1]) == DatesOf(rows[..i]) + [rows[i].date]
  {
    var prefix, row := rows[..i], rows[i];
    assert rows[..i + 1] == prefix + [row];
    TallyAppend(prefix, row);
    NamesAppend(prefix, row);
  }

  lemma TallyAppend(prefix: seq<SlaveRow>, row: SlaveRow)
    ensures var data := Tally(prefix);
            Tally(prefix + [row]) == data[row.slave := Step(if row.slave in data then data[row.slave] else Fresh, row.result)]
  {
    assert (prefix + [row])[..|prefix|] == prefix;
  }

  lemma NamesAppend(prefix: seq<SlaveRow>, row: SlaveRow)
    ensures Names(prefix + [row]) == if row.slave in Tally(prefix) then Names(prefix) else Names(prefix) + [row.slave]
  {
    assert (prefix + [row])[..|prefix|] == prefix;
    assert (row.slave in Names(prefix)) == (row.slave in Tally(prefix));
  }

  /** The loop that attaches sfr to each slave of slave_list. */
  method AttachRates(tally: map<string, Counters>, slaveList: seq<string>) returns (data: map<string, Counters>)
    requires Distinct(slaveList) && forall s :: s in slaveList ==> s in tally
    ensures data.Keys == tally.Keys
    ensures forall s :: s in data ==> data[s] == if s in slaveList then WithRate(tally[s]) else tally[s]
  {
    data := tally;
    for k := 0 to |slaveList|
      invariant data.Keys == tally.Keys
      invariant forall s :: s in data ==> data[s] == if s in slaveList[..k] then WithRate(tally[s]) else tally[s]
    {
      var s := slaveList[k];
      assert s !in slaveList[..k];
      var rates := CalculateFailRate(data[s].success, data[s].retry, data[s].total);
      data := data[s := data[s].(sfr := Some(rates))];
      assert slaveList[..k + 1] == slaveList[..k] + [s];
    }
    assert slaveList[..|slaveList|] == slaveList;
  }

  /**
   * The groupby loop: a run with a slave of slave_list gets the fail rate of
   * its summed counters under its key.
   */
  method PlatformRates(data: map<string, Counters>, slaveList: seq<string>, runs: seq<Run>)
    returns (platforms: map<string, FailRates>)
    ensures platforms == Rollup(data, (set s | s in slaveList), runs)
  {
    ghost var eligible := set s | s in slaveList;
    platforms := map[];
    for k := 0 to |runs|
      invariant platforms == Rollup(data, eligible, runs[..k])
    {
      assert runs[..k + 1][..k] == runs[..k];
      var run := runs[k];
      if exists m :: m in run.members && m in slaveList {
        var sums := SumCounts(data, run.members);
        var rates := CalculateFailRate(sums.success, sums.retry, sums.total);
        platforms := platforms[run.key := rates];
      }
    }
    assert runs[..|runs|] == runs;
  }

  /** The closing loop over data.keys() that deletes every slave not in slave_list. */
  method RemoveHidden(data: map<string, Counters>, keys: seq<string>, slaveList: seq<string>)
    returns (shown: map<string, Counters>)
    requires forall s :: s in data ==> s in keys
    ensures forall s :: s in shown <==> s in data && s in slaveList
    ensures forall s :: s in shown ==> shown[s] == data[s]
  {
    shown := data;
    for k := 0 to |keys|
      invariant forall s :: s in shown <==> s in data && (s in slaveList || s !in keys[..k])
      invariant forall s :: s in shown ==> shown[s] == data[s]
    {
      if keys[k] !in slaveList {
        shown := shown - {keys[k]};
      }
      assert keys[..k + 1] == keys[..k] + [keys[k]];
    }
    assert keys[..|keys|] == keys;
  }

  /** Attaching fail rates leaves every run's sums as they were. */
  lemma SameCounts(data: map<string, Counters>, tally: map<string, Counters>, slaveList: seq<string>, runs: seq<Run>)
    requires data.Keys == tally.Keys
    requires forall s :: s in data ==> data[s] == if s in slaveList then WithRate(tally[s]) else tally[s]
    ensures forall run :: run in runs ==> SumCounts(data, run.members) == SumCounts(tally, run.members)
  {
    forall run | run in runs
      ensures SumCounts(data, run.members) == SumCounts(tally, run.members)
    {
      SumsAgree(data, tally, run.members);
    }
  }

  /** What survives the deletion loop is the displayed slaves, each with its fail rate. */
  lemma ShownAreDisplayed(tally: map<string, Counters>, names: seq<string>, jobs: int, slaveList: seq<string>,
                          data: map<string, Counters>, shown: map<string, Counters>)
    requires forall s :: s in names <==> s in tally
    requires forall s :: s in slaveList <==> s in names && s in tally && tally[s].total > jobs
    requires data.Keys == tally.Keys
    requires forall s :: s in data ==> data[s] == if s in slaveList then WithRate(tally[s]) else tally[s]
    requires forall s :: s in shown <==> s in data && s in slaveList
    requires forall s :: s in shown ==> shown[s] == data[s]
    ensures forall s :: s in shown <==> s in tally && tally[s].total > jobs
    ensures forall s :: s in shown ==> shown[s] == WithRate(tally[s])
  {
  }

  /**
   * run_slaves_query after the fetch. No rows gives None (the "No data
   * found" answer); otherwise the displayed slaves with their fail rates,
   * the platform rates and the date range.
   */
  method RunSlavesQuery(rows: seq<SlaveRow>, window: Dates.Window) returns (r: Option<SlavesReport>)
    ensures r.None? <==> |rows| == 0
    ensures r.Some? ==> r.value.jobs == Threshold(window.endDate - window.startDate)
    ensures r.Some? ==> forall s :: s in r.value.slaves <==> s in Tally(rows) && Tally(rows)[s].total > r.value.jobs
    ensures r.Some? ==> forall s :: s in r.value.slaves ==> r.value.slaves[s] == WithRate(Tally(rows)[s])
    ensures r.Some? ==> r.value.platforms
                          == Rollup(Tally(rows), EligibleSet(Tally(rows), r.value.jobs), GroupRuns(Sort(Names(rows))))
    ensures r.Some? ==> r.value.dates == Dates.GetDateRange(DatesOf(rows))
  {
    var jobs := Threshold(window.endDate - window.startDate);

    if |rows| == 0 {
      return None;
    }

    var tally, names, dates := FoldRows(rows);
    var slaveList := EligibleNames(names, tally, jobs);
    ghost var eligible := set s | s in slaveList;
    assert eligible == EligibleSet(tally, jobs);
    var data := AttachRates(tally, slaveList);

    var runs := GroupRuns(Sort(names));
    SameCounts(data, tally, slaveList, runs);
    var platforms := PlatformRates(data, slaveList, runs);
    RollupSameSums(data, tally, eligible, runs);

    var shown := RemoveHidden(data, names, slaveList);
    ShownAreDisplayed(tally, names, jobs, slaveList, data, shown);
    r := Some(SlavesReport(shown, platforms, Dates.GetDateRange(dates), jobs));
  }
}
