/** `QuantitativeOne.test_distribution` (explorer/analysis/univariate.py):
    the choice between Shapiro-Wilk, chi-square and Kolmogorov-Smirnov, the
    lookup of the reference distribution and the KS method. */
module Univariate {
  import opened Wrappers
  import opened DataClass
  import opened Frames
  import AnalysisBase
  import Categories

  /** The keys of `DISTRIBUTIONS` (explorer/stats/distribution.py). */
  const Distributions: seq<string> :=
    ["beta", "normal", "chi2", "exponential", "f", "gamma", "logistic", "lognorm", "pareto", "uniform", "weibull_min"]

  /** Below this many rows a normality test uses Shapiro-Wilk. */
  const ShapiroRows: nat := 50

  const Analyzer: string := "QuantitativeOne"
  const ShapiroWilkName: string := "Shapiro-Wilk Test for Normality"
  const KolmogorovSmirnovName: string := "Kolmogorov-Smirnov Goodness-of-Fit"

  /** The error Python raises for the discrete branch's call, which omits
      `_chisq`'s positional parameter `kwargs`. */
  const MissingKwargs: string := "QuantitativeOne._chisq() missing 1 required positional argument: 'kwargs'"

  /** The `distribution` a result records: the name given, or (from
      `_kstest`) the scipy distribution object looked up under that name. */
  datatype DistRef = DistName(name: string) | DistObject(key: string)

  /** The fields `StatTestOneGoF` is built with. */
  datatype StatTestOneGoF = StatTestOneGoF(
    analyzer: string, test: string, distribution: DistRef, ksMethod: Option<string>,
    statistic: real, pvalue: real, x: string)

  /** The scipy calls: `shapiro(x)`, `kstest(rvs, cdf, method)`, the
      reference distribution's `rvs(**kwargs)` and `chisquare(f_obs, f_exp)`. */
  datatype Stats = Stats(
    shapiro: seq<Value> -> StatOutcome,
    kstest: (seq<Value>, string, string) -> StatOutcome,
    rvs: (string, seq<Attr>) -> seq<Value>,
    chisquare: Categories.ChiSquare)

  /** `"approx" if approx is True else "exact"`. */
  function KSMethod(approx: bool): (m: string)
    ensures m == "approx" <==> approx
    ensures m == "exact" <==> !approx
  {
    if approx then "approx" else "exact"
  }

  /** The result built from one library call: its exception passes through. */
  function Record(test: string, d: DistRef, m: Option<string>, name: string, o: StatOutcome): (r: Result<StatTestOneGoF>)
    ensures o.Raised? <==> r.Err?
    ensures o.Raised? ==> r.error == o.error
    ensures r.Ok? ==>
              && r.value.analyzer == Analyzer && r.value.test == test && r.value.distribution == d
              && r.value.ksMethod == m && r.value.x == name
              && r.value.statistic == o.statistic && r.value.pvalue == o.pvalue
  {
    match o
    case Returned(statistic, pvalue) => Ok(StatTestOneGoF(Analyzer, test, d, m, statistic, pvalue, name))
    case Raised(e) => Err(e)
  }

  /** `_shapiro_wilk(name)`. */
  function ShapiroWilk(df: Frame, name: string, lib: Stats): Result<StatTestOneGoF>
    requires name in df.Names()
  {
    Record(ShapiroWilkName, DistName("normal"), None, name, lib.shapiro(df.Get(name).value.cells))
  }

  /** `_kstest(name, distribution, approx)`: a KeyError for a name outside
      `DISTRIBUTIONS`, before any statistic is computed. */
  function KSTest(df: Frame, name: string, distribution: string, approx: bool, lib: Stats): (r: Result<StatTestOneGoF>)
    requires name in df.Names()
    ensures distribution !in Distributions ==> r == Err(KeyError(distribution))
    ensures r.Ok? ==> r.value.distribution == DistObject(distribution) && r.value.ksMethod == Some(KSMethod(approx))
  {
    if distribution !in Distributions then Err(KeyError(distribution))
    else
      var m := KSMethod(approx);
      Record(KolmogorovSmirnovName, DistObject(distribution), Some(m), name, lib.kstest(df.Get(name).value.cells, distribution, m))
  }

  /** `_chisq(name, distribution, kwargs)`: chi-square of the column against
      values drawn from the reference distribution. */
  function ChiSquare(df: Frame, name: string, distribution: string, kwargs: seq<Attr>, lib: Stats): (r: Result<StatTestOneGoF>)
    requires name in df.Names()
    ensures distribution !in Distributions ==> r == Err(KeyError(distribution))
    ensures r.Ok? ==> r.value.test == Categories.GoodnessOfFit && r.value.distribution == DistName(distribution)
  {
    if distribution !in Distributions then Err(KeyError(distribution))
    else
      var drawn := lib.rvs(distribution, kwargs);
      Record(Categories.GoodnessOfFit, DistName(distribution), None, name, lib.chisquare(df.Get(name).value.cells, Some(drawn)))
  }

  /** Which test `test_distribution` chooses. */
  datatype Choice = UseShapiroWilk | UseChiSquare | UseKolmogorovSmirnov

  /** Shapiro-Wilk for "normal" on fewer than 50 rows, otherwise chi-square
      for discrete data, otherwise Kolmogorov-Smirnov. */
  function Dispatch(df: Frame, distribution: string, discrete: bool): (c: Choice)
    ensures c == UseShapiroWilk <==> distribution == "normal" && df.nrows < ShapiroRows
    ensures c == UseChiSquare <==> !(distribution == "normal" && df.nrows < ShapiroRows) && discrete
  {
    if distribution == "normal" && df.nrows < ShapiroRows then UseShapiroWilk
    else if discrete then UseChiSquare
    else UseKolmogorovSmirnov
  }

  /** `test_distribution` as written: the discrete branch calls `_chisq`
      without `kwargs` and so raises a TypeError. */
  function TestDistributionAsWritten(df: Frame, name: string, distribution: string, approx: bool, discrete: bool, kwargs: seq<Attr>, lib: Stats): (r: Result<StatTestOneGoF>)
    ensures name !in df.Names() ==> r == Err(KeyError("Data has no attribute " + name + "."))
  {
    if name !in df.Names() then Err(KeyError("Data has no attribute " + name + "."))
    else
      match Dispatch(df, distribution, discrete)
      case UseShapiroWilk => ShapiroWilk(df, name, lib)
      case UseChiSquare => Err(TypeError(MissingKwargs))
      case UseKolmogorovSmirnov => KSTest(df, name, distribution, approx, lib)
  }

  /** The discrete branch never reaches a statistic as written. */
  lemma DiscreteBranchRaises(df: Frame, name: string, distribution: string, approx: bool, kwargs: seq<Attr>, lib: Stats)
    requires name in df.Names() && !(distribution == "normal" && df.nrows < ShapiroRows)
    ensures TestDistributionAsWritten(df, name, distribution, approx, true, kwargs, lib) == Err(TypeError(MissingKwargs))
  {
  }

  /** `test_distribution` with `kwargs` passed on to `_chisq`. */
  function TestDistribution(df: Frame, name: string, distribution: string, approx: bool, discrete: bool, kwargs: seq<Attr>, lib: Stats): (r: Result<StatTestOneGoF>)
    ensures name !in df.Names() ==> r == Err(KeyError("Data has no attribute " + name + "."))
    ensures r.Ok? ==> r.value.analyzer == Analyzer && r.value.x == name
    ensures r.Ok? ==> (r.value.test == ShapiroWilkName <==> Dispatch(df, distribution, discrete) == UseShapiroWilk)
    ensures r.Ok? ==> (r.value.test == Categories.GoodnessOfFit <==> Dispatch(df, distribution, discrete) == UseChiSquare)
    ensures r.Ok? ==> (r.value.test == KolmogorovSmirnovName <==> Dispatch(df, distribution, discrete) == UseKolmogorovSmirnov)
    ensures r.Ok? && r.value.test == KolmogorovSmirnovName ==> r.value.ksMethod == Some(KSMethod(approx))
  {
    if name !in df.Names() then Err(KeyError("Data has no attribute " + name + "."))
    else
      match Dispatch(df, distribution, discrete)
      case UseShapiroWilk => ShapiroWilk(df, name, lib)
      case UseChiSquare => ChiSquare(df, name, distribution, kwargs, lib)
      case UseKolmogorovSmirnov => KSTest(df, name, distribution, approx, lib)
  }

  /** Outside the discrete branch the corrected dispatch does what the
      written one does. */
  lemma CorrectedAgreesOutsideDiscrete(df: Frame, name: string, distribution: string, approx: bool, discrete: bool, kwargs: seq<Attr>, lib: Stats)
    requires !discrete || (distribution == "normal" && df.nrows < ShapiroRows)
    ensures TestDistribution(df, name, distribution, approx, discrete, kwargs, lib)
         == TestDistributionAsWritten(df, name, distribution, approx, discrete, kwargs, lib)
  {
  }

  /** With `kwargs` passed on, discrete data over 50 rows (or not checked for
      normality) against a known distribution reaches the chi-square test, and
      its statistic and p-value are the library's. */
  lemma CorrectedDiscreteReachesChiSquare(df: Frame, name: string, distribution: string, approx: bool, kwargs: seq<Attr>, lib: Stats)
    requires name in df.Names() && distribution in Distributions
    requires !(distribution == "normal" && df.nrows < ShapiroRows)
    requires lib.chisquare(df.Get(name).value.cells, Some(lib.rvs(distribution, kwargs))).Returned?
    ensures var r := TestDistribution(df, name, distribution, approx, true, kwargs, lib);
      var o := lib.chisquare(df.Get(name).value.cells, Some(lib.rvs(distribution, kwargs)));
      && r.Ok? && r.value.test == Categories.GoodnessOfFit && r.value.distribution == DistName(distribution)
      && r.value.statistic == o.statistic && r.value.pvalue == o.pvalue
  {
  }
}
