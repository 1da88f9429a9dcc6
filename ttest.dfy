/** The independent two-sample t test of
    d8analysis/quantitative/statistical/centrality/ttest.py. The statistic and
    p-value come from the statistics library (`ttest_ind`), the sample
    summaries from `QuantStats.compute`; both are passed in. */
module Centrality {
  import opened Wrappers
  import opened Text
  import opened DataClass
  import opened InferentialBase

  const TestId: string := "t2"

  /** The summary of one sample the test reads: its length, the number of
      values counted, their mean and standard deviation. */
  datatype QuantStats = QuantStats(length: int, count: int, mean: real, std: real)

  /** What a t-test result carries beyond the common fields. */
  datatype TTestData = TTestData(dof: int, homoscedastic: bool, x: seq<real>, y: seq<real>,
                                 xStats: QuantStats, yStats: QuantStats)

  function Abs(x: real): (r: real)
    ensures r >= 0.0 && (r == x || r == -x)
  {
    if x < 0.0 then -x else x
  }

  /** The inference sentence at the level `int(alpha*100)%`. */
  function Infer(pvalue: real, alpha: real, fmt: Format): string {
    PercentInference(pvalue, alpha, fmt,
      "The evidence against identical centers for x and y is not significant.",
      "The evidence against identical centers for x and y is significant.")
  }

  function SampleLine(name: string, q: QuantStats, fmt: Format): string {
    name + ": (N = " + IntToString(q.count) + ", M = " + fmt.round2(q.mean) + ", SD = " + fmt.round2(q.std) + ")"
  }

  /** `_report_results`. */
  function ReportResults(xs: QuantStats, ys: QuantStats, dof: int, statistic: real, pvalue: real,
                         alpha: real, fmt: Format): string {
    "Independent Samples t Test\n" + SampleLine("X", xs, fmt) + "\n" + SampleLine("Y", ys, fmt) + "\nt("
      + IntToString(dof) + ") = " + fmt.round2(statistic) + ", " + ReportPValue(pvalue, fmt.round3(pvalue))
      + " " + ReportAlpha(alpha)
  }

  /** The degrees of freedom: the two sample lengths less two. */
  function Dof(xs: QuantStats, ys: QuantStats): int {
    xs.length + ys.length - 2
  }

  /** The result `run` records: the magnitude of the statistic, the
      p-value, the variance assumption passed to the library, both samples
      and their summaries. */
  function RunResult(profile: Record, x: seq<real>, y: seq<real>, alpha: real, homoscedastic: bool,
                     statistic: real, pvalue: real, xs: QuantStats, ys: QuantStats, fmt: Format)
    : (res: TestResult<TTestData>)
    ensures res.value >= 0.0 && (res.value == statistic || res.value == -statistic)
    ensures res.pvalue == pvalue && res.alpha == alpha
    ensures res.test == Field(profile, "name") && res.statistic == Field(profile, "statistic")
    ensures res.hypothesis == Field(profile, "hypothesis") && res.H0 == Field(profile, "H0")
    ensures res.inference == Infer(pvalue, alpha, fmt)
    ensures res.result == ReportResults(xs, ys, Dof(xs, ys), statistic, pvalue, alpha, fmt)
    ensures res.detail == TTestData(Dof(xs, ys), homoscedastic, x, y, xs, ys)
    ensures res.interpretation.None?
  {
    var dof := Dof(xs, ys);
    TestResult(Field(profile, "name"), Field(profile, "hypothesis"), Field(profile, "H0"),
               Field(profile, "statistic"), Abs(statistic), pvalue, Infer(pvalue, alpha, fmt), alpha,
               ReportResults(xs, ys, dof, statistic, pvalue, alpha, fmt), None,
               TTestData(dof, homoscedastic, x, y, xs, ys))
  }

  /** When the summaries report the sample lengths, the degrees of freedom
      are n + m - 2. */
  lemma DofOfLengths(x: seq<real>, y: seq<real>, quantStats: seq<real> -> QuantStats)
    requires forall s :: quantStats(s).length == |s|
    ensures Dof(quantStats(x), quantStats(y)) == |x| + |y| - 2
  {
  }

  class TTest {
    const x: seq<real>
    const y: seq<real>
    const alpha: real
    const homoscedastic: bool
    const profile: Record
    var result: Option<TestResult<TTestData>>

    /** The constructor, given the profile `StatTestProfileTwo.create("t2")`
        made; Welch's test (unequal variances) unless told otherwise. */
    constructor (profile: Record, x: seq<real>, y: seq<real>, alpha: real := DefaultAlpha, homoscedastic: bool := false)
      ensures this.profile == profile && this.x == x && this.y == y
      ensures this.alpha == alpha && this.homoscedastic == homoscedastic && result.None?
    {
      this.profile := profile;
      this.x := x;
      this.y := y;
      this.alpha := alpha;
      this.homoscedastic := homoscedastic;
      result := None;
    }

    /** `run`: the library is asked for equal variances exactly when the test
        is homoscedastic; an exception leaves the previous result. */
    method Run(ttestInd: (seq<real>, seq<real>, bool) -> StatOutcome, quantStats: seq<real> -> QuantStats,
               fmt: Format) returns (o: Outcome)
      modifies this`result
      ensures ttestInd(x, y, homoscedastic).Raised? ==>
                o == Fail(ttestInd(x, y, homoscedastic).error) && result == old(result)
      ensures ttestInd(x, y, homoscedastic).Returned? ==>
                o == Pass && result == Some(RunResult(profile, x, y, alpha, homoscedastic,
                                                      ttestInd(x, y, homoscedastic).statistic,
                                                      ttestInd(x, y, homoscedastic).pvalue,
                                                      quantStats(x), quantStats(y), fmt))
    {
      var out := ttestInd(x, y, homoscedastic);
      if out.Raised? {
        return Fail(out.error);
      }
      result := Some(RunResult(profile, x, y, alpha, homoscedastic, out.statistic, out.pvalue,
                               quantStats(x), quantStats(y), fmt));
      o := Pass;
    }
  }

  /** Construction: create the profile, then the test. */
  method NewTTest(profiles: map<string, Entry>, x: seq<real>, y: seq<real>, alpha: real := DefaultAlpha,
                  homoscedastic: bool := false)
    returns (r: Result<TTest>)
    ensures r.Err? <==> TestId !in profiles
    ensures r.Ok? ==> fresh(r.value) && r.value.profile == Create(ProfileTwo, profiles, TestId).value
    ensures r.Ok? ==> r.value.x == x && r.value.y == y && r.value.alpha == alpha
    ensures r.Ok? ==> r.value.homoscedastic == homoscedastic && r.value.result.None?
  {
    var profile := Create(ProfileTwo, profiles, TestId);
    if profile.Err? {
      return Err(profile.error);
    }
    var t := new TTest(profile.value, x, y, alpha, homoscedastic);
    return Ok(t);
  }
}
