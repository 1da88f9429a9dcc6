/** The Kolmogorov-Smirnov test of
    d8analysis/quantitative/inferential/distribution/kstest.py: one sample
    against a named reference distribution, or two samples. The statistic and
    p-value come from the statistics library (`kstest`); the density and
    quantile function of the statistic's distribution (`kstwo`) are passed in
    for the plot. */
module KolmogorovSmirnov {
  import opened Wrappers
  import opened Text
  import opened DataClass
  import opened Plotting
  import opened InferentialBase

  const TestId: string := "kstest"

  /** The `b` argument: a distribution name or a second sample. */
  datatype Reference = Named(name: string) | Sample(values: seq<real>)

  /** What a KS result carries beyond the common fields. */
  datatype KSData = KSData(a: seq<real>, b: Reference)

  /** The error `run` raises for an exception of the library: the handler for
      KeyError reads an attribute the test object never sets, so a KeyError
      surfaces as an AttributeError; every other exception passes unchanged. */
  function RaisedByRun(e: Error): (r: Error)
    ensures e.KeyError? ==> r.AttributeError?
    ensures !e.KeyError? ==> r == e
  {
    if e.KeyError? then AttributeError("'KSTest' object has no attribute '_reference_distribution'")
    else e
  }

  /** The note on sample size: below 50 the Shapiro-Wilk test is suggested,
      above 1000 practical significance is questioned, otherwise none. */
  function SampleSizeNote(n: nat): (r: Option<string>)
    ensures r.None? <==> 50 <= n <= 1000
    ensures n < 50 ==> r == Some(SmallSampleNote)
    ensures n > 1000 ==> r == Some(LargeSampleNote)
  {
    var interpretation := if n < 50 then Some(SmallSampleNote) else None;
    if n > 1000 then Some(LargeSampleNote) else interpretation
  }

  const SmallSampleNote: string :=
    "Note: The Kolmogorov-Smirnov Test requires a sample size N > 50. For smaller sample sizes, the Shapiro-Wilk test should be considered."
  const LargeSampleNote: string :=
    "Note: The Kolmogorov-Smirnov Test on large sample sizes may lead to rejections of the null hypothesis that are statistically significant, yet practically insignificant."

  /** What the evidence is against: the named distribution, or a common one. */
  function Against(b: Reference): string {
    match b
    case Named(name) => "the " + name
    case Sample(_) => "the same distribution"
  }

  /** `_infer`: the shared inference sentence at the level `int(alpha*100)%`,
      naming the reference distribution or, for two samples, a common one. */
  function Infer(b: Reference, pvalue: real, alpha: real, fmt: Format): (r: string)
    ensures NotRejected(pvalue, alpha) ==>
              r == VerdictText(fmt.round2(pvalue), "greater", PercentLevel(alpha), "not rejected",
                               "The evidence against the data being drawn from " + Against(b) + " is not significant.")
    ensures !NotRejected(pvalue, alpha) ==>
              r == VerdictText(fmt.round2(pvalue), "less", PercentLevel(alpha), "rejected",
                               "The evidence against the data being drawn from " + Against(b) + " is significant.")
  {
    Verdict(pvalue, alpha, fmt.round2(pvalue), PercentLevel(alpha),
            "The evidence against the data being drawn from " + Against(b) + " is not significant.",
            "The evidence against the data being drawn from " + Against(b) + " is significant.")
  }

  /** `_report_results`: "D(n)=statistic, p=pvalue" in APA style. */
  function ReportResults(n: nat, statistic: real, pvalue: real, fmt: Format): string {
    "D(" + Decimal(n) + ")=" + fmt.round4(statistic) + ", p=" + fmt.round3(pvalue)
  }

  /** The result `run` records for the library's statistic and p-value. */
  function RunResult(profile: Record, a: seq<real>, b: Reference, alpha: real,
                     statistic: real, pvalue: real, fmt: Format): (res: TestResult<KSData>)
    ensures res.value == statistic && res.pvalue == pvalue && res.alpha == alpha
    ensures res.test == Field(profile, "name") && res.statistic == Field(profile, "statistic")
    ensures res.inference == Infer(b, pvalue, alpha, fmt)
    ensures res.result == ReportResults(|a|, statistic, pvalue, fmt)
    ensures res.interpretation == SampleSizeNote(|a|) && res.detail == KSData(a, b)
  {
    TestResult(Field(profile, "name"), Field(profile, "hypothesis"), Field(profile, "H0"),
               Field(profile, "statistic"), statistic, pvalue, Infer(b, pvalue, alpha, fmt), alpha,
               ReportResults(|a|, statistic, pvalue, fmt), SampleSizeNote(|a|), KSData(a, b))
  }

  class KSTest {
    const a: seq<real>
    const b: Reference
    const alpha: real
    const profile: Record
    var result: Option<TestResult<KSData>>

    /** The constructor, given the profile `StatTestProfileOne.create("kstest")` made. */
    constructor (profile: Record, a: seq<real>, b: Reference, alpha: real := DefaultAlpha)
      ensures this.profile == profile && this.a == a && this.b == b && this.alpha == alpha
      ensures result.None?
    {
      this.profile := profile;
      this.a := a;
      this.b := b;
      this.alpha := alpha;
      result := None;
    }

    /** `run`: the two-sided test; an exception leaves the previous result in
        place (a KeyError turned into an AttributeError on the way out). */
    method Run(kstest: (seq<real>, Reference) -> StatOutcome, fmt: Format) returns (o: Outcome)
      modifies this`result
      ensures kstest(a, b).Raised? ==> o == Fail(RaisedByRun(kstest(a, b).error)) && result == old(result)
      ensures kstest(a, b).Returned? ==>
                o == Pass && result == Some(RunResult(profile, a, b, alpha, kstest(a, b).statistic, kstest(a, b).pvalue, fmt))
    {
      var n := |a|;
      var out := kstest(a, b);
      if out.Raised? {
        return Fail(RaisedByRun(out.error));
      }
      var inference := Infer(b, out.pvalue, alpha, fmt);
      var interpretation: Option<string> := None;
      if n < 50 {
        interpretation := Some(SmallSampleNote);
      }
      if n > 1000 {
        interpretation := Some(LargeSampleNote);
      }
      result := Some(TestResult(Field(profile, "name"), Field(profile, "hypothesis"), Field(profile, "H0"),
                                Field(profile, "statistic"), out.statistic, out.pvalue, inference, alpha,
                                ReportResults(n, out.statistic, out.pvalue, fmt), interpretation, KSData(a, b)));
      o := Pass;
    }
  }

  /** Construction: create the one-variable profile, then the test. */
  method NewKSTest(profiles: map<string, Entry>, a: seq<real>, b: Reference, alpha: real := DefaultAlpha)
    returns (r: Result<KSTest>)
    ensures r.Err? <==> TestId !in profiles
    ensures r.Ok? ==> fresh(r.value) && r.value.profile == Create(ProfileOne, profiles, TestId).value
    ensures r.Ok? ==> r.value.a == a && r.value.b == b && r.value.alpha == alpha && r.value.result.None?
  {
    var profile := Create(ProfileOne, profiles, TestId);
    if profile.Err? {
      return Err(profile.error);
    }
    var t := new KSTest(profile.value, a, b, alpha);
    return Ok(t);
  }

  /** The tail probabilities of the two-sided reject region. */
  function CriticalLevels(alpha: real): (r: (real, real))
    ensures r.0 + r.1 == 1.0 && r.1 - r.0 == 1.0 - alpha
    ensures 0.0 < alpha < 1.0 ==> 0.0 < r.0 < 0.5 < r.1 < 1.0
  {
    (alpha / 2.0, 1.0 - alpha / 2.0)
  }

  /** The artists `_fill_reject_region` adds after the two tail fills, read
      off the curve (xdata, ydata): at its first point beyond the statistic,
      a marker, the statistic rounded to four places, and a label at each
      critical value; nothing when no such point exists (numpy's IndexError
      is swallowed). */
  function StatisticMarks(xdata: seq<real>, ydata: seq<real>, value: real,
                          lowerCritical: real, upperCritical: real, fmt: Format): (r: seq<Artist>)
    requires |ydata| == |xdata|
    ensures r == [] <==> forall i :: 0 <= i < |xdata| ==> xdata[i] <= value
    ensures r != [] ==> var k := FirstAbove(xdata, value).value;
              && xdata[k] > value && (forall j :: 0 <= j < k ==> xdata[j] <= value)
              && |r| == 4
              && r[0] == Marker(xdata[k], ydata[k])
              && r[1] == Annotation("D = " + fmt.round4(value), xdata[k], ydata[k])
              && r[2] == Annotation("Critical Value", lowerCritical, 0.0)
              && r[3] == Annotation("Critical Value", upperCritical, 0.0)
  {
    match FirstAbove(xdata, value)
    case None => []
    case Some(idx) =>
      var x := xdata[idx];
      var y := ydata[idx];
      [Marker(x, y), Annotation("D = " + fmt.round4(value), x, y),
       Annotation("Critical Value", lowerCritical, 0.0), Annotation("Critical Value", upperCritical, 0.0)]
  }

  /** The marks `_fill_reject_region` reads off the first curve of the axes
      (`lines[0]`); none when there is no curve, where it raises. */
  function MarksOnFirstCurve(artists: seq<Artist>, value: real, lowerCritical: real, upperCritical: real,
                             fmt: Format): (r: seq<Artist>)
    ensures FirstLineData(artists).None? ==> r == []
    ensures FirstLineData(artists).Some? ==>
              r == StatisticMarks(FirstLineData(artists).value.0, FirstLineData(artists).value.1, value,
                                  lowerCritical, upperCritical, fmt)
  {
    match FirstLineData(artists)
    case None => []
    case Some(line) => StatisticMarks(line.0, line.1, value, lowerCritical, upperCritical, fmt)
  }

  /** `_fill_reject_region`: shade both tails, then mark the statistic on
      the first curve of the axes, which raises IndexError when the axes
      hold no curve. */
  method FillRejectRegion(ax: Axes, lower: real, upper: real, lowerCritical: real, upperCritical: real,
                          value: real, fmt: Format) returns (o: Outcome)
    modifies ax`artists
    ensures var filled := old(ax.artists) + [FillUnder(lower, lowerCritical), FillUnder(upperCritical, upper)];
            && o == (if FirstLineData(filled).None? then Fail(IndexError) else Pass)
            && ax.artists == filled + MarksOnFirstCurve(filled, value, lowerCritical, upperCritical, fmt)
  {
    ax.Add(FillUnder(lower, lowerCritical));
    ax.Add(FillUnder(upperCritical, upper));
    ghost var filled := ax.artists;
    assert filled == old(ax.artists) + [FillUnder(lower, lowerCritical), FillUnder(upperCritical, upper)];
    var line := FirstLineData(ax.artists);
    if line.None? {
      assert ax.artists == filled + [];
      return Fail(IndexError);
    }
    var xdata, ydata := line.value.0, line.value.1;
    var found := FirstAbove(xdata, value);
    if found.Some? {
      var x := xdata[found.value];
      var y := ydata[found.value];
      ax.Add(Marker(x, y));
      ax.Add(Annotation("D = " + fmt.round4(value), x, y));
      ax.Add(Annotation("Critical Value", lowerCritical, 0.0));
      ax.Add(Annotation("Critical Value", upperCritical, 0.0));
    }
    assert ax.artists == filled + StatisticMarks(xdata, ydata, value, lowerCritical, upperCritical, fmt);
    o := Pass;
  }

  /** Number of points of the drawn density. */
  const CurvePoints: nat := 500

  /** `_plot_statistic`: draw the density of the statistic for n points
      between its 0.1% and 99.9% quantiles, shade the reject region
      between the quantiles at alpha/2 and 1 - alpha/2, mark the statistic
      on the first curve of the axes, and title the plot with the result.
      On axes that held no curve before, that curve is the one just drawn. */
  method PlotStatistic(ax: Axes, n: nat, alpha: real, value: real, resultText: string,
                       ppf: (real, nat) -> real, pdf: (real, nat) -> real, fmt: Format)
    modifies ax`artists, ax`title, ax`ylabel
    ensures var x := Linspace(ppf(0.001, n), ppf(0.999, n), CurvePoints);
            var y := Density(pdf, n, x);
            var lc := ppf(CriticalLevels(alpha).0, n);
            var uc := ppf(CriticalLevels(alpha).1, n);
            var filled := old(ax.artists) + [Line(Zip(x, y)), FillUnder(ppf(0.001, n), lc), FillUnder(uc, ppf(0.999, n))];
            && ax.artists == filled + MarksOnFirstCurve(filled, value, lc, uc, fmt)
            && ((forall j :: 0 <= j < |old(ax.artists)| ==> !old(ax.artists)[j].Line?) ==>
                  ax.artists == filled + StatisticMarks(x, y, value, lc, uc, fmt))
    ensures ax.title == "Kolmogorov-Smirnov Goodness of Fit\n" + resultText
    ensures ax.ylabel == "Probability Density"
  {
    ghost var before := ax.artists;
    var x := Linspace(ppf(0.001, n), ppf(0.999, n), CurvePoints);
    var y := Density(pdf, n, x);
    ax.Add(Line(Zip(x, y)));
    var lower := x[0];
    var upper := x[|x| - 1];
    var levels := CriticalLevels(alpha);
    var lowerCritical := ppf(levels.0, n);
    var upperCritical := ppf(levels.1, n);
    ghost var fills := [FillUnder(lower, lowerCritical), FillUnder(upperCritical, upper)];
    ghost var filled := before + [Line(Zip(x, y))] + fills;
    assert lower == ppf(0.001, n) && upper == ppf(0.999, n);
    assert filled == before + [Line(Zip(x, y)), FillUnder(ppf(0.001, n), lowerCritical), FillUnder(upperCritical, ppf(0.999, n))];
    assert filled == ax.artists + fills;
    if forall j :: 0 <= j < |before| ==> !before[j].Line? {
      MarksOnFreshCurve(before, x, y, fills, value, lowerCritical, upperCritical, fmt);
    }
    var _ := FillRejectRegion(ax, lower, upper, lowerCritical, upperCritical, value, fmt);
    assert ax.artists == filled + MarksOnFirstCurve(filled, value, lowerCritical, upperCritical, fmt);
    ax.title := "Kolmogorov-Smirnov Goodness of Fit\n" + resultText;
    ax.ylabel := "Probability Density";
  }

  /** On axes that held no curve before the density, the marks are read off
      the density itself. */
  lemma MarksOnFreshCurve(before: seq<Artist>, x: seq<real>, y: seq<real>, fills: seq<Artist>,
                          value: real, lc: real, uc: real, fmt: Format)
    requires |y| == |x|
    requires forall j :: 0 <= j < |before| ==> !before[j].Line?
    ensures MarksOnFirstCurve(before + [Line(Zip(x, y))] + fills, value, lc, uc, fmt) == StatisticMarks(x, y, value, lc, uc, fmt)
  {
    FirstLineDataOfFresh(before, x, y, fills);
  }

  /** A statistic beyond the whole drawn curve gets no marker. */
  lemma NoMarkBeyondCurve(xdata: seq<real>, ydata: seq<real>, value: real, lc: real, uc: real, fmt: Format)
    requires |ydata| == |xdata|
    requires forall i :: 0 <= i < |xdata| ==> xdata[i] <= value
    ensures StatisticMarks(xdata, ydata, value, lc, uc, fmt) == []
  {
  }

  /** A statistic below the last drawn point is always marked, at the first
      point beyond it. */
  lemma MarkWithinCurve(xdata: seq<real>, ydata: seq<real>, value: real, lc: real, uc: real, fmt: Format)
    requires |ydata| == |xdata| && |xdata| > 0 && value < xdata[|xdata| - 1]
    ensures |StatisticMarks(xdata, ydata, value, lc, uc, fmt)| == 4
  {
    assert FirstAbove(xdata, value).Some?;
  }
}
