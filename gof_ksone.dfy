/** The one-sample Kolmogorov-Smirnov goodness-of-fit test of
    explorer/stats/goodness_of_fit/ksone.py: a sample against a reference
    distribution named by a key of `DISTRIBUTIONS`. The statistic and p-value
    come from the statistics library's Monte Carlo goodness-of-fit test,
    passed in as `goodnessOfFit`; the density and quantile function of the
    statistic's distribution (`ksone`) are passed in for the plot. */
module GoodnessOfFitKSOne {
  import opened Wrappers
  import opened Text
  import opened DataClass
  import opened Plotting
  import opened InferentialBase
  import Univariate

  const TestId: string := "ks1"

  /** The number of Monte Carlo samples the library draws. */
  const McSamples: nat := 100

  /** `stats.goodness_of_fit(dist=..., data=..., statistic="ks", n_mc_samples=...)`
      for the distribution stored under a name. */
  type GoodnessOfFitFn = (string, seq<real>, nat) -> StatOutcome

  /** What a KS one-sample result carries beyond the common fields. */
  datatype KSOneData = KSOneData(referenceDistribution: string, data: seq<real>)

  /** The inference sentence at the level `str(alpha)`. */
  function Infer(pvalue: real, alpha: real, fmt: Format): string {
    ShownInference(pvalue, alpha, fmt,
      "The data were drawn from the reference distribution.",
      "The data were not drawn from the reference distribution.")
  }

  /** "(N=n)=statistic, p>alpha" or "... p<alpha". */
  function Report(n: nat, statistic: real, pvalue: real, alpha: real, fmt: Format): string {
    "(N=" + Decimal(n) + ")=" + fmt.round2(statistic) + ", p" + Sign(pvalue, alpha) + fmt.show(alpha)
  }

  /** The result a call records: the library's figures, the name of the
      reference distribution, the data and the test's alpha. */
  function CallResult(profile: Record, data: seq<real>, reference: string, alpha: real,
                      statistic: real, pvalue: real, fmt: Format): (res: TestResult<KSOneData>)
    ensures res.value == statistic && res.pvalue == pvalue && res.alpha == alpha
    ensures res.test == Field(profile, "name") && res.statistic == Field(profile, "statistic")
    ensures res.inference == Infer(pvalue, alpha, fmt)
    ensures res.result == Report(|data|, statistic, pvalue, alpha, fmt)
    ensures res.detail == KSOneData(reference, data) && res.interpretation.None?
  {
    TestResult(Field(profile, "name"), Field(profile, "hypothesis"), Field(profile, "H0"),
               Field(profile, "statistic"), statistic, pvalue, Infer(pvalue, alpha, fmt), alpha,
               Report(|data|, statistic, pvalue, alpha, fmt), None, KSOneData(reference, data))
  }

  class KSOneTest {
    const alpha: real
    const profile: Record
    var data: Option<seq<real>>
    var result: Option<TestResult<KSOneData>>

    /** The constructor, given the profile `StatTestProfileOne.create("ks1")` made. */
    constructor (profile: Record, alpha: real := DefaultAlpha)
      ensures this.profile == profile && this.alpha == alpha
      ensures data.None? && result.None?
    {
      this.profile := profile;
      this.alpha := alpha;
      data := None;
      result := None;
    }

    /** `__call__(data, reference_distribution)`: the data is stored first;
        a name outside `DISTRIBUTIONS` raises KeyError (after logging) and a
        library exception propagates, both keeping the previous result. */
    method Call(data: seq<real>, reference: string, goodnessOfFit: GoodnessOfFitFn, fmt: Format)
      returns (o: Outcome)
      modifies this`data, this`result
      ensures this.data == Some(data)
      ensures reference !in Univariate.Distributions ==> o == Fail(KeyError(reference)) && result == old(result)
      ensures reference in Univariate.Distributions ==>
                var out := goodnessOfFit(reference, data, McSamples);
                && (out.Raised? ==> o == Fail(out.error) && result == old(result))
                && (out.Returned? ==> o == Pass && result == Some(CallResult(profile, data, reference, alpha,
                                                                              out.statistic, out.pvalue, fmt)))
    {
      this.data := Some(data);
      if reference !in Univariate.Distributions {
        return Fail(KeyError(reference));
      }
      var out := goodnessOfFit(reference, data, McSamples);
      if out.Raised? {
        return Fail(out.error);
      }
      var inference := Infer(out.pvalue, alpha, fmt);
      result := Some(TestResult(Field(profile, "name"), Field(profile, "hypothesis"), Field(profile, "H0"),
                                Field(profile, "statistic"), out.statistic, out.pvalue, inference, alpha,
                                Report(|data|, out.statistic, out.pvalue, alpha, fmt), None,
                                KSOneData(reference, data)));
      o := Pass;
    }
  }

  /** Construction: create the one-variable profile, then the test. */
  method NewKSOneTest(profiles: map<string, Entry>, alpha: real := DefaultAlpha)
    returns (r: Result<KSOneTest>)
    ensures r.Err? <==> TestId !in profiles
    ensures r.Ok? ==> fresh(r.value) && r.value.profile == Create(ProfileOne, profiles, TestId).value
    ensures r.Ok? ==> r.value.alpha == alpha && r.value.data.None? && r.value.result.None?
  {
    var profile := Create(ProfileOne, profiles, TestId);
    if profile.Err? {
      return Err(profile.error);
    }
    var t := new KSOneTest(profile.value, alpha);
    return Ok(t);
  }

  /** The shading the plot adds: from the first drawn point beyond the
      statistic to the end of the curve; nothing when no point lies beyond
      it (numpy's IndexError is swallowed). */
  function RejectFill(xdata: seq<real>, ydata: seq<real>, value: real): (r: seq<Artist>)
    requires |ydata| == |xdata|
    ensures r == [] <==> forall i :: 0 <= i < |xdata| ==> xdata[i] <= value
    ensures r != [] ==> var k := FirstAbove(xdata, value).value;
              && r == [FillBetween(xdata[k..], ydata[k..])]
              && xdata[k] > value && forall i :: 0 <= i < k ==> xdata[i] <= value
  {
    match FirstAbove(xdata, value)
    case None => []
    case Some(idx) => [FillBetween(xdata[idx..], ydata[idx..])]
  }

  /** On a curve drawn left to right the shaded points are exactly those
      beyond the statistic: the fill starts at the first of them and every
      point from there on lies beyond it. */
  lemma ShadedBeyondStatistic(xdata: seq<real>, ydata: seq<real>, value: real)
    requires |ydata| == |xdata|
    requires forall i, j :: 0 <= i < j < |xdata| ==> xdata[i] <= xdata[j]
    requires RejectFill(xdata, ydata, value) != []
    ensures var xs := RejectFill(xdata, ydata, value)[0].xs;
            && |xs| <= |xdata| && xs == xdata[|xdata| - |xs|..]
            && forall i :: 0 <= i < |xdata| ==> (xdata[i] > value <==> i >= |xdata| - |xs|)
  {
    var k := FirstAbove(xdata, value).value;
    forall i | k <= i < |xdata| ensures xdata[i] > value {
      if i > k { assert xdata[k] <= xdata[i]; }
    }
  }

  /** Number of points of the drawn density. */
  const CurvePoints: nat := 100

  /** `KSOneTestResult.plot`: the density of the statistic for n = len(data)
      between its 1% and 99.9% quantiles, then the shaded region beyond the
      observed statistic on the first curve of the axes (`ax.lines[0]`), and
      the title naming the reference distribution. On axes that held no
      curve before, that curve is the one just drawn; on a caller's axes that
      already hold one, the shading follows the older curve. */
  method Plot(ax: Axes, res: TestResult<KSOneData>, ppf: (real, nat) -> real, pdf: (real, nat) -> real)
    modifies ax`artists, ax`title, ax`xlabel, ax`ylabel
    ensures var n := |res.detail.data|;
            var x := Linspace(ppf(0.01, n), ppf(0.999, n), CurvePoints);
            var y := Density(pdf, n, x);
            var drawn := old(ax.artists) + [Line(Zip(x, y))];
            && FirstLineData(drawn).Some?
            && ax.artists == drawn + RejectFill(FirstLineData(drawn).value.0, FirstLineData(drawn).value.1, res.value)
            && ((forall j :: 0 <= j < |old(ax.artists)| ==> !old(ax.artists)[j].Line?) ==>
                  ax.artists == drawn + RejectFill(x, y, res.value))
    ensures ax.title == "Goodness of Fit\n" + Capitalize(res.detail.referenceDistribution) + " Distribution\n" + res.result
    ensures ax.xlabel == "Value" && ax.ylabel == "Probability Density"
  {
    var n := |res.detail.data|;
    var x := Linspace(ppf(0.01, n), ppf(0.999, n), CurvePoints);
    var y := Density(pdf, n, x);
    DrawShaded(ax, x, y, res.value);
    ax.title := "Goodness of Fit\n" + Capitalize(res.detail.referenceDistribution) + " Distribution\n" + res.result;
    ax.xlabel := "Value";
    ax.ylabel := "Probability Density";
  }

  /** The first half of `plot`: the curve through (x, y), then the region
      beyond `value` shaded under the first curve of the axes. */
  method DrawShaded(ax: Axes, x: seq<real>, y: seq<real>, value: real)
    requires |x| == |y|
    modifies ax`artists
    ensures var drawn := old(ax.artists) + [Line(Zip(x, y))];
            && FirstLineData(drawn).Some?
            && ax.artists == drawn + RejectFill(FirstLineData(drawn).value.0, FirstLineData(drawn).value.1, value)
            && ((forall j :: 0 <= j < |old(ax.artists)| ==> !old(ax.artists)[j].Line?) ==>
                  ax.artists == drawn + RejectFill(x, y, value))
  {
    ghost var before := ax.artists;
    ax.Add(Line(Zip(x, y)));
    ghost var drawn := ax.artists;
    assert drawn[|before|].Line?;
    if forall j :: 0 <= j < |before| ==> !before[j].Line? {
      FirstLineDataOfFresh(before, x, y, []);
      assert before + [Line(Zip(x, y))] + [] == drawn;
    }
    var line := FirstLineData(ax.artists).value;
    var xdata, ydata := line.0, line.1;
    var found := FirstAbove(xdata, value);
    if found.Some? {
      var idx := found.value;
      ax.Add(FillBetween(xdata[idx..], ydata[idx..]));
    }
    assert ax.artists == drawn + RejectFill(xdata, ydata, value);
  }

  /** The curve `plot` draws runs left to right whenever the 1% quantile lies
      at or below the 99.9% quantile, so on fresh axes its shading covers
      exactly the drawn points beyond the statistic. */
  lemma CurveShadedBeyondStatistic(lo: real, hi: real, ydata: seq<real>, value: real)
    requires lo <= hi
    requires |ydata| == CurvePoints
    requires RejectFill(Linspace(lo, hi, CurvePoints), ydata, value) != []
    ensures var xdata := Linspace(lo, hi, CurvePoints);
            var xs := RejectFill(xdata, ydata, value)[0].xs;
            forall i :: 0 <= i < CurvePoints ==> (xdata[i] > value <==> i >= CurvePoints - |xs|)
  {
    ShadedBeyondStatistic(Linspace(lo, hi, CurvePoints), ydata, value);
  }
}
