/** The chi-square test of independence of
    explorer/stats/independence/chisquare.py: the first two columns of a
    table are cross-tabulated and the chi-square test is applied to the counts. The cross
    tabulation and the test are library calls, passed in as `crosstab` and
    `chi2Contingency`. Also the long table of observed and expected
    frequencies its result builds for plotting. */
module IndependenceChiSquare {
  import opened Wrappers
  import opened Text
  import opened DataClass
  import opened Frames
  import opened InferentialBase

  const TestId: string := "x2ind"

  /** `stats.contingency.crosstab(s1, s2)`: the distinct levels of each
      variable (`elements`) and the count table, one row per level of the
      first variable and one column per level of the second. */
  datatype Crosstab = Crosstab(rowLevels: seq<Value>, colLevels: seq<Value>, count: seq<seq<real>>)

  /** `stats.chi2_contingency(count)`: statistic, p-value, degrees of freedom
      and the table of expected frequencies; or an exception. */
  datatype ContingencyOutcome =
    | Computed(statistic: real, pvalue: real, dof: int, expected: seq<seq<real>>)
    | Failed(error: Error)

  /** What an independence result carries beyond the common fields. */
  datatype IndependenceData = IndependenceData(dof: int, data: Frame, observed: Crosstab, expected: seq<seq<real>>)

  /** The chi-square symbol every result shows, whatever the profile says. */
  const Symbol: string := "X\U{00B2}"

  /** The inference sentence at the level `str(alpha)`. */
  function Infer(pvalue: real, alpha: real, fmt: Format): string {
    ShownInference(pvalue, alpha, fmt,
      "The data have the expected frequencies.",
      "The data do not have the expected frequencies.")
  }

  /** "X²(dof, N=n)=statistic, p>alpha" or "... p<alpha". */
  function Report(dof: int, n: nat, statistic: real, pvalue: real, alpha: real, fmt: Format): string {
    Symbol + "(" + IntToString(dof) + ", N=" + Decimal(n) + ")=" + fmt.round2(statistic) + ", p"
      + Sign(pvalue, alpha) + fmt.show(alpha)
  }

  /** The result a call records: the fixed symbol, the library's statistic,
      p-value, degrees of freedom and expected table, the cross tabulation as
      observed, and N the number of rows of the data. */
  function CallResult(profile: Record, data: Frame, observed: Crosstab, statistic: real, pvalue: real,
                      dof: int, expected: seq<seq<real>>, alpha: real, fmt: Format): (res: TestResult<IndependenceData>)
    ensures res.statistic == Str(Symbol) && res.test == Field(profile, "name")
    ensures res.value == statistic && res.pvalue == pvalue && res.alpha == alpha
    ensures res.inference == Infer(pvalue, alpha, fmt)
    ensures res.result == Report(dof, data.nrows, statistic, pvalue, alpha, fmt)
    ensures res.detail == IndependenceData(dof, data, observed, expected) && res.interpretation.None?
  {
    TestResult(Field(profile, "name"), Field(profile, "hypothesis"), Field(profile, "H0"), Str(Symbol),
               statistic, pvalue, Infer(pvalue, alpha, fmt), alpha,
               Report(dof, data.nrows, statistic, pvalue, alpha, fmt), None,
               IndependenceData(dof, data, observed, expected))
  }

  class ChiSquareIndependenceTest {
    const alpha: real
    const profile: Record
    var data: Option<Frame>
    var result: Option<TestResult<IndependenceData>>

    /** The constructor, given the profile `StatTestProfileTwo.create("x2ind")` made. */
    constructor (profile: Record, alpha: real := DefaultAlpha)
      ensures this.profile == profile && this.alpha == alpha
      ensures data.None? && result.None?
    {
      this.profile := profile;
      this.alpha := alpha;
      data := None;
      result := None;
    }

    /** `__call__(data)`: store the data, cross-tabulate its first two
        columns (an IndexError when it has fewer) and test the count table;
        an exception keeps the previous result. */
    method Call(data: Frame, crosstab: (seq<Value>, seq<Value>) -> Crosstab,
                chi2Contingency: seq<seq<real>> -> ContingencyOutcome, fmt: Format)
      returns (o: Outcome)
      modifies this`data, this`result
      ensures this.data == Some(data)
      ensures |data.cols| < 2 ==> o == Fail(IndexError) && result == old(result)
      ensures |data.cols| >= 2 ==>
                var obs := crosstab(data.cols[0].cells, data.cols[1].cells);
                var out := chi2Contingency(obs.count);
                && (out.Failed? ==> o == Fail(out.error) && result == old(result))
                && (out.Computed? ==> o == Pass && result == Some(CallResult(profile, data, obs, out.statistic,
                                                                              out.pvalue, out.dof, out.expected, alpha, fmt)))
    {
      this.data := Some(data);
      if |data.cols| < 2 {
        return Fail(IndexError);
      }
      var s1 := data.cols[0].cells;
      var s2 := data.cols[1].cells;
      var obs := crosstab(s1, s2);
      var out := chi2Contingency(obs.count);
      if out.Failed? {
        return Fail(out.error);
      }
      var inference := Infer(out.pvalue, alpha, fmt);
      result := Some(TestResult(Field(profile, "name"), Field(profile, "hypothesis"), Field(profile, "H0"),
                                Str(Symbol), out.statistic, out.pvalue, inference, alpha,
                                Report(out.dof, data.nrows, out.statistic, out.pvalue, alpha, fmt), None,
                                IndependenceData(out.dof, data, obs, out.expected)));
      o := Pass;
    }
  }

  /** Construction: create the two-variable profile, then the test. */
  method NewChiSquareIndependenceTest(profiles: map<string, Entry>, alpha: real := DefaultAlpha)
    returns (r: Result<ChiSquareIndependenceTest>)
    ensures r.Err? <==> TestId !in profiles
    ensures r.Ok? ==> fresh(r.value) && r.value.profile == Create(ProfileTwo, profiles, TestId).value
    ensures r.Ok? ==> r.value.alpha == alpha && r.value.data.None? && r.value.result.None?
  {
    var profile := Create(ProfileTwo, profiles, TestId);
    if profile.Err? {
      return Err(profile.error);
    }
    var t := new ChiSquareIndependenceTest(profile.value, alpha);
    return Ok(t);
  }

  // ---------------------------------------------------------------------------
  // `_combine_contingency_tables`

  /** One row of the long table: which table it comes from, the level of the
      second variable, the level of the first, and the frequency. */
  datatype CombinedRow = CombinedRow(dataset: string, colLevel: Value, rowLevel: Value, count: real)

  datatype CombinedTable = CombinedTable(columns: seq<string>, rows: seq<CombinedRow>)

  /** The shape the library gives both tables: one row per level of the
      first variable, one entry per level of the second. */
  predicate WellShaped(obs: Crosstab, exp: seq<seq<real>>) {
    && |obs.count| == |obs.rowLevels| && |exp| == |obs.rowLevels|
    && forall i :: 0 <= i < |obs.rowLevels| ==> |obs.count[i]| == |obs.colLevels| && |exp[i]| == |obs.colLevels|
  }

  /** The rows `melt` makes of the column of row level i: the observed
      frequencies at each column level, then the expected ones. */
  function Block(obs: Crosstab, exp: seq<seq<real>>, i: nat): (r: seq<CombinedRow>)
    requires WellShaped(obs, exp) && i < |obs.rowLevels|
    ensures |r| == 2 * |obs.colLevels|
  {
    var m := |obs.colLevels|;
    seq(2 * m, k requires 0 <= k < 2 * m =>
      if k < m then CombinedRow("Observed", obs.colLevels[k], obs.rowLevels[i], obs.count[i][k])
      else CombinedRow("Expected", obs.colLevels[k - m], obs.rowLevels[i], exp[i][k - m]))
  }

  /** The blocks of the first n row levels, in order. */
  function Blocks(obs: Crosstab, exp: seq<seq<real>>, n: nat): seq<CombinedRow>
    requires WellShaped(obs, exp) && n <= |obs.rowLevels|
  {
    if n == 0 then [] else Blocks(obs, exp, n - 1) + Block(obs, exp, n - 1)
  }

  /** The long table: the observed table and the expected table, each with a
      row per level of the second variable and a column per level of the
      first, stacked and melted column by column. A table with fewer than two
      columns has no names to give the level columns. */
  method CombineContingencyTables(res: IndependenceData) returns (r: Result<CombinedTable>)
    requires WellShaped(res.observed, res.expected)
    ensures |res.data.cols| < 2 ==> r == Err(IndexError)
    ensures |res.data.cols| >= 2 ==>
              r == Ok(CombinedTable(["Dataset", res.data.cols[1].name, res.data.cols[0].name, "Count"],
                                    Blocks(res.observed, res.expected, |res.observed.rowLevels|)))
  {
    if |res.data.cols| < 2 {
      return Err(IndexError);
    }
    var obs := res.observed;
    var exp := res.expected;
    var n := |obs.rowLevels|;
    var m := |obs.colLevels|;
    var rows: seq<CombinedRow> := [];
    for i := 0 to n
      invariant rows == Blocks(obs, exp, i)
    {
      ghost var before := rows;
      ghost var block := Block(obs, exp, i);
      for j := 0 to m
        invariant rows == before + block[..j]
      {
        assert block[..j + 1] == block[..j] + [block[j]];
        rows := rows + [CombinedRow("Observed", obs.colLevels[j], obs.rowLevels[i], obs.count[i][j])];
      }
      for j := 0 to m
        invariant rows == before + block[..m + j]
      {
        assert block[..m + j + 1] == block[..m + j] + [block[m + j]];
        rows := rows + [CombinedRow("Expected", obs.colLevels[j], obs.rowLevels[i], exp[i][j])];
      }
      assert block[..2 * m] == block;
    }
    var columns := ["Dataset", res.data.cols[1].name, res.data.cols[0].name, "Count"];
    return Ok(CombinedTable(columns, rows));
  }

  predicate DistinctValues(s: seq<Value>) {
    forall i, j :: 0 <= i < j < |s| ==> s[i] != s[j]
  }

  /** No two rows share their table, column level and row level. */
  predicate KeysDistinct(rows: seq<CombinedRow>) {
    forall a, b :: 0 <= a < b < |rows| ==>
      (rows[a].dataset, rows[a].colLevel, rows[a].rowLevel) != (rows[b].dataset, rows[b].colLevel, rows[b].rowLevel)
  }

  /** The blocks hold 2m rows per row level, each labelled Observed or
      Expected and carrying one of the first n row levels. */
  lemma {:induction false} BlocksShape(obs: Crosstab, exp: seq<seq<real>>, n: nat)
    requires WellShaped(obs, exp) && n <= |obs.rowLevels|
    ensures |Blocks(obs, exp, n)| == n * (2 * |obs.colLevels|)
    ensures forall k :: 0 <= k < |Blocks(obs, exp, n)| ==>
              && Blocks(obs, exp, n)[k].dataset in {"Observed", "Expected"}
              && Blocks(obs, exp, n)[k].rowLevel in obs.rowLevels[..n]
  {
    if n > 0 {
      BlocksShape(obs, exp, n - 1);
      var prev := Blocks(obs, exp, n - 1);
      var b := Block(obs, exp, n - 1);
      assert Blocks(obs, exp, n) == prev + b;
      var rows: seq<CombinedRow> := prev + b;
      forall k | 0 <= k < |rows|
        ensures rows[k].rowLevel in obs.rowLevels[..n]
      {
        if k < |prev| {
          assert rows[k] == prev[k];
          assert prev[k].rowLevel in obs.rowLevels[..n - 1];
          assert obs.rowLevels[..n - 1] == obs.rowLevels[..n][..n - 1];
        } else {
          assert rows[k] == b[k - |prev|];
          assert rows[k].rowLevel == obs.rowLevels[..n][n - 1];
        }
      }
    }
  }

  /** With distinct levels, no (table, column level, row level) key repeats. */
  lemma {:induction false} BlocksKeysDistinct(obs: Crosstab, exp: seq<seq<real>>, n: nat)
    requires WellShaped(obs, exp) && n <= |obs.rowLevels|
    requires DistinctValues(obs.rowLevels) && DistinctValues(obs.colLevels)
    ensures KeysDistinct(Blocks(obs, exp, n))
  {
    if n > 0 {
      BlocksKeysDistinct(obs, exp, n - 1);
      BlocksShape(obs, exp, n - 1);
      var prev := Blocks(obs, exp, n - 1);
      var b := Block(obs, exp, n - 1);
      var rows := prev + b;
      assert Blocks(obs, exp, n) == rows;
      assert obs.rowLevels[n - 1] !in obs.rowLevels[..n - 1] by {
        forall k | 0 <= k < n - 1 ensures obs.rowLevels[k] != obs.rowLevels[n - 1] { }
      }
      forall x, y | 0 <= x < y < |rows|
        ensures (rows[x].dataset, rows[x].colLevel, rows[x].rowLevel) != (rows[y].dataset, rows[y].colLevel, rows[y].rowLevel)
      {
        if y >= |prev| {
          assert rows[y] == b[y - |prev|];
          if x < |prev| {
            assert rows[x].rowLevel in obs.rowLevels[..n - 1];
          } else {
            assert rows[x] == b[x - |prev|];
          }
        }
      }
    }
  }

  /** Every block of a row level up to n lies within the first n blocks. */
  lemma {:induction false} BlockWithin(obs: Crosstab, exp: seq<seq<real>>, n: nat, i: nat, k: nat)
    requires WellShaped(obs, exp) && i < n <= |obs.rowLevels| && k < 2 * |obs.colLevels|
    ensures Block(obs, exp, i)[k] in Blocks(obs, exp, n)
  {
    if i < n - 1 {
      BlockWithin(obs, exp, n - 1, i, k);
    }
    assert Blocks(obs, exp, n) == Blocks(obs, exp, n - 1) + Block(obs, exp, n - 1);
  }

  /** The combined table labels each row Observed or Expected and holds, under
      each label, exactly one row for every pair of a level of the first
      variable and a level of the second, carrying that pair's observed or
      expected frequency. */
  lemma CombinedTableRows(obs: Crosstab, exp: seq<seq<real>>)
    requires WellShaped(obs, exp)
    requires DistinctValues(obs.rowLevels) && DistinctValues(obs.colLevels)
    ensures var rows := Blocks(obs, exp, |obs.rowLevels|);
            && |rows| == 2 * |obs.rowLevels| * |obs.colLevels|
            && KeysDistinct(rows)
            && (forall k :: 0 <= k < |rows| ==> rows[k].dataset in {"Observed", "Expected"})
            && forall i, j :: 0 <= i < |obs.rowLevels| && 0 <= j < |obs.colLevels| ==>
                 && CombinedRow("Observed", obs.colLevels[j], obs.rowLevels[i], obs.count[i][j]) in rows
                 && CombinedRow("Expected", obs.colLevels[j], obs.rowLevels[i], exp[i][j]) in rows
  {
    var n, m := |obs.rowLevels|, |obs.colLevels|;
    BlocksShape(obs, exp, n);
    BlocksKeysDistinct(obs, exp, n);
    assert n * (2 * m) == 2 * n * m;
    forall i, j | 0 <= i < n && 0 <= j < m
      ensures CombinedRow("Observed", obs.colLevels[j], obs.rowLevels[i], obs.count[i][j]) in Blocks(obs, exp, n)
      ensures CombinedRow("Expected", obs.colLevels[j], obs.rowLevels[i], exp[i][j]) in Blocks(obs, exp, n)
    {
      PairPresent(obs, exp, i, j);
    }
  }

  /** The observed and expected rows of one pair of levels are in the table. */
  lemma PairPresent(obs: Crosstab, exp: seq<seq<real>>, i: nat, j: nat)
    requires WellShaped(obs, exp) && i < |obs.rowLevels| && j < |obs.colLevels|
    ensures CombinedRow("Observed", obs.colLevels[j], obs.rowLevels[i], obs.count[i][j]) in Blocks(obs, exp, |obs.rowLevels|)
    ensures CombinedRow("Expected", obs.colLevels[j], obs.rowLevels[i], exp[i][j]) in Blocks(obs, exp, |obs.rowLevels|)
  {
    var m := |obs.colLevels|;
    BlockWithin(obs, exp, |obs.rowLevels|, i, j);
    BlockWithin(obs, exp, |obs.rowLevels|, i, m + j);
  }
}
