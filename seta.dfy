/**
 * The grouping of run_seta_query: every fetched (bugid, platform,
 * buildtype, testtype) row is filed under its bug id, in row order.
 */
module Seta {

  datatype FailureRow = FailureRow(bugId: string, platform: string, buildType: string, testType: string)

  /** The [platform, buildtype, testtype] triple stored for a row. */
  datatype Failure = Failure(platform: string, buildType: string, testType: string)

  function FailureOf(row: FailureRow): Failure
  {
    Failure(row.platform, row.buildType, row.testType)
  }

  /** The triples of the rows filed under bug b, in row order. */
  function RowsFor(rows: seq<FailureRow>, b: string): seq<Failure>
  {
    if |rows| == 0 then []
    else
      var last := rows[|rows| - 1];
      RowsFor(rows[..|rows| - 1], b) + (if last.bugId == b then [FailureOf(last)] else [])
  }

  predicate HasBug(rows: seq<FailureRow>, b: string)
  {
    exists k :: 0 <= k < |rows| && rows[k].bugId == b
  }

  /**
   * The failures dictionary: a bug id is a key exactly when some row carries
   * it, and its list holds that bug's triples in row order.
   */
  method GroupFailures(rows: seq<FailureRow>) returns (failures: map<string, seq<Failure>>)
    ensures forall b :: b in failures <==> HasBug(rows, b)
    ensures forall b :: b in failures ==> failures[b] == RowsFor(rows, b)
  {
    failures := map[];
    for i := 0 to |rows|
      invariant forall b :: b in failures <==> HasBug(rows[..i], b)
      invariant forall b :: b in failures ==> failures[b] == RowsFor(rows[..i], b)
    {
      var d := rows[i];
      GroupStep(rows, i);
      if d.bugId !in failures {
        NoBugNoRows(rows[..i], d.bugId);
        failures := failures[d.bugId := []];
      }
      failures := failures[d.bugId := failures[d.bugId] + [FailureOf(d)]];
    }
    assert rows[..|rows|] == rows;
  }

  /** The key test and the filtered lists, one row further. */
  lemma GroupStep(rows: seq<FailureRow>, i: int)
    requires 0 <= i < |rows|
    ensures forall b :: HasBug(rows[..i + 1], b) <==> HasBug(rows[..i], b) || rows[i].bugId == b
    ensures forall b :: RowsFor(rows[..i + 1], b) ==
                          RowsFor(rows[..i], b) + (if rows[i].bugId == b then [FailureOf(rows[i])] else [])
  {
    var prefix := rows[..i + 1];
    assert prefix[..i] == rows[..i];
    forall b | HasBug(prefix, b) && rows[i].bugId != b
      ensures HasBug(rows[..i], b)
    {
      var k :| 0 <= k < |prefix| && prefix[k].bugId == b;
      assert rows[..i][k].bugId == b;
    }
    forall b | HasBug(rows[..i], b)
      ensures HasBug(prefix, b)
    {
      var k :| 0 <= k < i && rows[..i][k].bugId == b;
      assert prefix[k].bugId == b;
    }
    assert prefix[i].bugId == rows[i].bugId;
  }

  /** A bug no row carries has no triples. */
  lemma {:induction false} NoBugNoRows(rows: seq<FailureRow>, b: string)
    requires !HasBug(rows, b)
    ensures RowsFor(rows, b) == []
  {
    if |rows| > 0 {
      var init := rows[..|rows| - 1];
      forall k | 0 <= k < |init|
        ensures init[k].bugId != b
      {
        assert init[k] == rows[k];
      }
      NoBugNoRows(init, b);
      assert rows[|rows| - 1].bugId != b;
    }
  }

  /** A triple is filed under b exactly when some row of bug b carries it. */
  lemma {:induction false} RowsForMembers(rows: seq<FailureRow>, b: string, f: Failure)
    ensures f in RowsFor(rows, b) <==> exists k :: 0 <= k < |rows| && rows[k].bugId == b && FailureOf(rows[k]) == f
  {
    if |rows| > 0 {
      var init, last := rows[..|rows| - 1], rows[|rows| - 1];
      RowsForMembers(init, b, f);
      if exists k :: 0 <= k < |rows| && rows[k].bugId == b && FailureOf(rows[k]) == f {
        var k :| 0 <= k < |rows| && rows[k].bugId == b && FailureOf(rows[k]) == f;
        if k < |init| {
          assert init[k] == rows[k];
        }
      }
      if exists k :: 0 <= k < |init| && init[k].bugId == b && FailureOf(init[k]) == f {
        var k :| 0 <= k < |init| && init[k].bugId == b && FailureOf(init[k]) == f;
        assert rows[k] == init[k];
      }
    }
  }

  /** A bug's list holds one triple per row of that bug, and is non-empty exactly for the keys. */
  lemma {:induction false} RowsForLength(rows: seq<FailureRow>, b: string)
    ensures |RowsFor(rows, b)| == CountBug(rows, b)
    ensures HasBug(rows, b) <==> CountBug(rows, b) > 0
  {
    if |rows| > 0 {
      var init := rows[..|rows| - 1];
      RowsForLength(init, b);
      if HasBug(rows, b) && rows[|rows| - 1].bugId != b {
        var k :| 0 <= k < |rows| && rows[k].bugId == b;
        assert init[k].bugId == b;
      }
      if HasBug(init, b) {
        var k :| 0 <= k < |init| && init[k].bugId == b;
        assert rows[k].bugId == b;
      }
    }
  }

  /** The number of rows of bug b. */
  function CountBug(rows: seq<FailureRow>, b: string): nat
  {
    if |rows| == 0 then 0
    else CountBug(rows[..|rows| - 1], b) + (if rows[|rows| - 1].bugId == b then 1 else 0)
  }

  /** Two rows of one bug around another bug's row: the bug's list keeps their order. */
  lemma GroupFailuresExample()
    ensures var rows := [FailureRow("1", "linux32", "opt", "mochitest-1"),
                         FailureRow("2", "winxp", "debug", "mochitest-1"),
                         FailureRow("1", "win7", "opt", "mochitest-2")];
            && RowsFor(rows, "1") == [Failure("linux32", "opt", "mochitest-1"), Failure("win7", "opt", "mochitest-2")]
            && RowsFor(rows, "2") == [Failure("winxp", "debug", "mochitest-1")]
  {
    var rows := [FailureRow("1", "linux32", "opt", "mochitest-1"),
                 FailureRow("2", "winxp", "debug", "mochitest-1"),
                 FailureRow("1", "win7", "opt", "mochitest-2")];
    assert rows[..2] == [rows[0], rows[1]];
    assert rows[..2][..1] == [rows[0]];
    assert [rows[0]][..0] == [];
    assert RowsFor([rows[0]], "1") == [FailureOf(rows[0])];
    assert RowsFor([rows[0]], "2") == [];
    assert RowsFor(rows[..2], "1") == [FailureOf(rows[0])];
    assert RowsFor(rows[..2], "2") == [FailureOf(rows[1])];
  }
}
