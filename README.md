# d8analysis in Dafny

A Dafny model of the logic that d8analysis (and its sibling packages
`explorer` and `edation`) wraps around its statistics library:

- the test profiles loaded from the statistics configuration and the result
  records each test builds;
- the hypothesis tests themselves: Pearson correlation, Kolmogorov-Smirnov,
  chi-square goodness of fit (two versions), the independent-samples t test,
  the one-sample KS goodness-of-fit test and the chi-square test of
  independence. For each test the model covers the reject / not-reject
  decision, degrees of freedom, APA-style report strings, sample-size notes
  and when the stored result is replaced;
- the search for the first drawn point beyond a statistic, which the plots use
  to mark and shade it;
- the subplot grid of `Canvas.get_figaxes`;
- the record serialisers `as_dict`, `_export_config`, `__repr__` and `__str__`;
- the frequency table and category alignment of the qualitative analyses, and
  the test dispatch of the quantitative one;
- the column-name and dtype checks and tick-label wrapping;
- column selection and the quality summary of a dataset;
- the random id generator that never reissues an id.

Every statistic, p-value, density and quantile comes from scipy. These are
parameters of the model: function values returning `Returned(statistic,
pvalue)` or `Raised(error)`. Number rendering (`round`, `str` of a float) is
the `Format` record of functions. A raised exception is a `Result` or
`Outcome` value carrying an `Error`.

Modules, one per source file where the source has one:

| file | module | source |
|---|---|---|
| inferential.dfy | InferentialBase | d8analysis/quantitative/inferential/base.py |
| pearson.dfy | Pearson | d8analysis/quantitative/inferential/relational/pearson.py |
| kstest.dfy | KolmogorovSmirnov | d8analysis/quantitative/inferential/distribution/kstest.py |
| chisquare_test.dfy | DistributionChiSquare | d8analysis/quantitative/statistical/distribution/chisquare.py |
| ttest.dfy | Centrality | d8analysis/quantitative/statistical/centrality/ttest.py |
| canvas.dfy | VisualConfig | d8analysis/visual/config.py |
| dataclass.dfy | DataClass | d8analysis/data/dataclass.py |
| categories.dfy | Categories | explorer/analysis/univariate.py (QualitativeOne) and explorer/univariate.py (CategoricalOne) |
| univariate.dfy | Univariate | explorer/analysis/univariate.py (QuantitativeOne) |
| analysis_base.dfy | AnalysisBase | explorer/analysis/base.py |
| gof_chisquare.dfy | GoodnessOfFitChiSquare | explorer/stats/goodness_of_fit/chisquare.py |
| gof_ksone.dfy | GoodnessOfFitKSOne | explorer/stats/goodness_of_fit/ksone.py |
| independence.dfy | IndependenceChiSquare | explorer/stats/independence/chisquare.py |
| dataset.dfy | Dataset | edation/data/base.py |
| identity.dfy | Identity | explorer/service/identity.py |
| wrappers.dfy, text.dfy, frames.dfy, plotting.dfy, sorting.dfy | Wrappers, Text, Frames, Plotting, Sorting | shared: Option/Result, Python string methods, a data frame, an axes, sorting |

`QualitativeOne` and `CategoricalOne` have the same `frequency`,
`test_distribution` and `_valsort`. The two differ only in the analyzer name
they record, so `Categories` models them once and takes that name as a
parameter.

## Model

| member | source | states |
|---|---|---|
| InferentialBase.DeclaredFields | d8analysis/quantitative/inferential/base.py:122-131 | both profile classes declare the eleven base fields first, then their own variable types |
| InferentialBase.Construct | d8analysis/quantitative/inferential/base.py:49-59 | a dataclass built from keyword arguments has exactly the declared fields, in order, each holding its argument or the default None |
| InferentialBase.Create | d8analysis/quantitative/inferential/base.py:110-117 | an unknown id is a KeyError carrying the id. Otherwise the profile has exactly the declared fields, `id` is the requested id even when the row has its own, and every other declared field holds the row's value or None |
| InferentialBase.FieldsOfConstruct | d8analysis/quantitative/inferential/base.py:115-117 | every declared field of the constructed record reads back its keyword argument or None |
| InferentialBase.CreateKeepsDeclaredOnly | d8analysis/quantitative/inferential/base.py:121-131 | a row's `Y_variable_type` is dropped by `StatTestProfileOne` and kept by `StatTestProfileTwo` |
| InferentialBase.ProfileAsDictShowsAll | d8analysis/quantitative/inferential/base.py:82-86 | `as_dict` of a profile has exactly the declared fields, since none is private |
| InferentialBase.ReportPValue | d8analysis/quantitative/inferential/base.py:175-180 | "p<.001" exactly when p < 0.001, otherwise "P=" and the value rounded to three places |
| InferentialBase.ReportAlpha | d8analysis/quantitative/inferential/base.py:182-184 | "significant at N%." where N is alpha × 100 truncated to a whole number |
| InferentialBase.ReportDefaultAlpha | d8analysis/quantitative/inferential/base.py:143 | the default alpha 0.05 reports as "significant at 5%." |
| InferentialBase.Verdict | explorer/stats/goodness_of_fit/ksone.py:159-164 | the inference sentence keeps the null hypothesis exactly when p > alpha and rejects it otherwise |
| InferentialBase.PercentInference | d8analysis/quantitative/statistical/distribution/chisquare.py:89-92 | the inference of the distribution chi-square test and the t test (d8analysis/quantitative/statistical/centrality/ttest.py:99-102): the keep sentence, "greater" and "not rejected" exactly when p > alpha, otherwise the reject sentence, "less" and "rejected"; p rounded to two places, level int(alpha·100)% |
| InferentialBase.ShownInference | explorer/stats/goodness_of_fit/chisquare.py:107-112 | the inference of the goodness-of-fit chi-square, KS one-sample (explorer/stats/goodness_of_fit/ksone.py:159-164) and independence (explorer/stats/independence/chisquare.py:185-190) tests: keep exactly when p > alpha, at the level `str(alpha)` |
| InferentialBase.Sign | explorer/stats/independence/chisquare.py:185-190 | the report's comparison sign is ">" exactly when p > alpha, "<" otherwise |
| InferentialBase.VerdictsDiffer | explorer/stats/independence/chisquare.py:185-190 | the keep and reject sentences differ for any renderings, so the decision can be read from the text |
| Pearson.StrengthOf | d8analysis/quantitative/inferential/relational/pearson.py:195-205 | the bands of \|r\| at 0.9, 0.7, 0.5 and 0.3, each given as an if-and-only-if on \|r\| |
| Pearson.InterpretR | d8analysis/quantitative/inferential/relational/pearson.py:182-205 | below 0.3 the interpretation is "negligible correlation."; otherwise it is the band word, then the direction, then "correlation." |
| Pearson.InterpretRNegated | d8analysis/quantitative/inferential/relational/pearson.py:189-195 | negating r keeps its band and flips its direction |
| Pearson.InterpretPerfect | d8analysis/quantitative/inferential/relational/pearson.py:195-205 | r = 1 and r = -1 are very high positive and negative, and r = 0 is negligible |
| Pearson.Inference | d8analysis/quantitative/inferential/relational/pearson.py:158-161 | the "However … not statistically significant" sentence exactly when p > alpha, and the "Further … significant" one otherwise |
| Pearson.InferenceDistinguishes | d8analysis/quantitative/inferential/relational/pearson.py:158-161 | the two inference texts differ for the same figures |
| Pearson.Columns | d8analysis/quantitative/inferential/relational/pearson.py:139-141 | without data a TypeError; a missing or absent column name is a KeyError; otherwise the two columns' cells |
| Pearson.RunResult | d8analysis/quantitative/inferential/relational/pearson.py:154-177 | dof is len(data) − 2; the result carries the profile's name, hypothesis, H0 and statistic, r and p, and the report and inference for that dof |
| Pearson.PearsonCorrelationTest.constructor | d8analysis/quantitative/inferential/relational/pearson.py:110-123 | data, a, b and alpha are stored and there is no result yet |
| Pearson.PearsonCorrelationTest.Run | d8analysis/quantitative/inferential/relational/pearson.py:136-177 | a lookup or library exception propagates and keeps the previous result; on success the result becomes RunResult of the library's r and p |
| Pearson.NewPearsonCorrelationTest | d8analysis/quantitative/inferential/relational/pearson.py:110-123 | construction fails exactly when the "pearson" profile is missing, and otherwise holds the two-variable profile |
| KolmogorovSmirnov.RaisedByRun | d8analysis/quantitative/inferential/distribution/kstest.py:302-307 | a KeyError from the library leaves `run` as an AttributeError, because the handler reads an attribute that is never set; other exceptions pass unchanged |
| KolmogorovSmirnov.SampleSizeNote | d8analysis/quantitative/inferential/distribution/kstest.py:311-315 | no note exactly when 50 ≤ n ≤ 1000; the small-sample note below 50; the large-sample note above 1000 |
| KolmogorovSmirnov.Infer | d8analysis/quantitative/inferential/distribution/kstest.py:334-346 | keep or reject by p > alpha at int(alpha·100)%, naming the reference distribution, or "the same distribution" for two samples |
| KolmogorovSmirnov.RunResult | d8analysis/quantitative/inferential/distribution/kstest.py:309-332 | the result holds the library's D and p, the inference, "D(n)=…, p=…" for n = len(a), the sample-size note, and a and b |
| KolmogorovSmirnov.KSTest.constructor | d8analysis/quantitative/inferential/distribution/kstest.py:279-285 | a, b and alpha are stored and there is no result yet |
| KolmogorovSmirnov.KSTest.Run | d8analysis/quantitative/inferential/distribution/kstest.py:297-332 | a library exception propagates and keeps the previous result; on success the result becomes RunResult |
| KolmogorovSmirnov.NewKSTest | d8analysis/quantitative/inferential/distribution/kstest.py:279-285 | construction fails exactly when the "kstest" profile is missing |
| KolmogorovSmirnov.CriticalLevels | d8analysis/quantitative/inferential/distribution/kstest.py:75-78 | the two tail probabilities alpha/2 and 1 − alpha/2 sum to 1 and enclose 1 − alpha; for 0 < alpha < 1 they lie on either side of 0.5 |
| KolmogorovSmirnov.StatisticMarks | d8analysis/quantitative/inferential/distribution/kstest.py:128-170 | with no point of the curve beyond the statistic there are no marks, because the IndexError is swallowed. Otherwise there are four marks at the first such point, every earlier point lying at or below the statistic: the marker, the label "D = " with the statistic rounded to four places, and a "Critical Value" label at each critical value |
| KolmogorovSmirnov.MarksOnFirstCurve | d8analysis/quantitative/inferential/distribution/kstest.py:124-127 | the marks are read off the x and y values of the first curve of the axes (`lines[0]`); there are none when the axes hold no curve |
| KolmogorovSmirnov.MarksOnFreshCurve | d8analysis/quantitative/inferential/distribution/kstest.py:66-70 | on axes that held no curve before the density was drawn, the marks are read off the density itself |
| KolmogorovSmirnov.FillRejectRegion | d8analysis/quantitative/inferential/distribution/kstest.py:96-170 | the axes gain the lower and upper tail fills, then the marks on their first curve, and nothing else. With no curve on the axes, `lines[0]` raises IndexError after the fills |
| KolmogorovSmirnov.PlotStatistic | d8analysis/quantitative/inferential/distribution/kstest.py:62-94 | the density is drawn over 500 points between the 0.1% and 99.9% quantiles for n, and the critical values are at alpha/2 and 1 − alpha/2. The marks follow the first curve of the axes, which is the new density when the axes held no curve before. The title and y label are set |
| KolmogorovSmirnov.NoMarkBeyondCurve | d8analysis/quantitative/inferential/distribution/kstest.py:129-170 | a statistic at or beyond every drawn point gets no mark |
| KolmogorovSmirnov.MarkWithinCurve | d8analysis/quantitative/inferential/distribution/kstest.py:129-170 | a statistic below the last drawn point gets its marker and three labels |
| DistributionChiSquare.Step | d8analysis/quantitative/statistical/distribution/chisquare.py:83-113 | `run` as written: it fails exactly when the library raises. On success the result is `Reports`: the profile's name, hypothesis and H0, the symbol "X²", the library's statistic and p, the inference at alpha, and the report with dof len(observed) − 1; the detail holds dof, observed and expected. A missing `expected` is replaced by the placeholder tuple in the test's own state |
| DistributionChiSquare.ReportNamesN | d8analysis/quantitative/statistical/distribution/chisquare.py:108 | the report opens with "X²(dof, N=" and the sum of the observed frequencies |
| DistributionChiSquare.RerunUsesPlaceholder | d8analysis/quantitative/statistical/distribution/chisquare.py:94-97 | with a library that rejects the placeholder, a second `run` of a test made without expected frequencies fails where the first succeeded |
| DistributionChiSquare.StepFixed | d8analysis/quantitative/statistical/distribution/chisquare.py:94-97 | the corrected `run` records the same result fields as `Step` (`Reports`) but keeps the test's expected frequencies as given and puts the placeholder only in the result |
| DistributionChiSquare.StepFixedIdempotent | d8analysis/quantitative/statistical/distribution/chisquare.py:83-113 | running the corrected test again reproduces the same state |
| DistributionChiSquare.StepFixedAgreesWhenGiven | d8analysis/quantitative/statistical/distribution/chisquare.py:94-97 | with expected frequencies given, the corrected and the written `run` agree |
| DistributionChiSquare.ChiSquareTest.constructor | d8analysis/quantitative/statistical/distribution/chisquare.py:60-71 | observed, expected and alpha are stored and there is no result yet |
| DistributionChiSquare.ChiSquareTest.Run | d8analysis/quantitative/statistical/distribution/chisquare.py:83-113 | the new `_expected` and `_result` are those of Step; on an exception both are unchanged |
| DistributionChiSquare.NewChiSquareTest | d8analysis/quantitative/statistical/distribution/chisquare.py:60-71 | construction fails exactly when the "x2gof" profile is missing |
| Centrality.Abs | d8analysis/quantitative/statistical/centrality/ttest.py:112 | the recorded statistic is non-negative and equals t or −t |
| Centrality.RunResult | d8analysis/quantitative/statistical/centrality/ttest.py:91-121 | value is \|t\|, p and alpha are as given; the profile's name, hypothesis, H0 and statistic; the inference at alpha; the report of both summaries with dof the sum of the two lengths minus 2; the homoscedastic flag and both samples are kept |
| Centrality.DofOfLengths | d8analysis/quantitative/statistical/centrality/ttest.py:93-95 | the degrees of freedom are n1 + n2 − 2 |
| Centrality.TTest.constructor | d8analysis/quantitative/statistical/centrality/ttest.py:67-76 | x, y, alpha and the homoscedastic flag are stored; no result yet |
| Centrality.TTest.Run | d8analysis/quantitative/statistical/centrality/ttest.py:88-121 | a library exception keeps the previous result; on success the result becomes RunResult |
| Centrality.NewTTest | d8analysis/quantitative/statistical/centrality/ttest.py:67-76 | construction fails exactly when the "t2" profile is missing |
| VisualConfig.CeilDiv | d8analysis/visual/config.py:292 | `math.ceil(a / b)`: the least integer at or above the quotient |
| VisualConfig.GetFigaxes | d8analysis/visual/config.py:280-309 | one plot gets a single axes. More plots get ceil(n / maxcols) rows and min(maxcols, n) columns, with one slot per index; the last slot spans to the end of its row. maxcols = 0 is a ZeroDivisionError. figsize defaults to (width, height) |
| VisualConfig.SlotsInGrid | d8analysis/visual/config.py:299-307 | every slot's row and column lie inside the grid |
| VisualConfig.RowBelow | d8analysis/visual/config.py:292-301 | the row of any index is below the number of rows |
| VisualConfig.SlotsDistinct | d8analysis/visual/config.py:300-301 | two indexes never share a slot |
| VisualConfig.PlotConfigAsDictKeepsAll | d8analysis/visual/config.py:43-45 | a plot configuration's `as_dict` keeps every attribute, private ones included |
| DataClass.ExportSeq | d8analysis/data/dataclass.py:100-101 | a list or tuple is exported element by element, keeping its length |
| DataClass.ExportAttrs | d8analysis/data/dataclass.py:90-94 | a data holder drops its private attributes and a plot configuration keeps all of them; every kept value is exported |
| DataClass.AsDict | d8analysis/data/dataclass.py:90-94 | the keys of `as_dict` are the attribute names, less the private ones for a data holder |
| DataClass.ExportIsExported | d8analysis/data/dataclass.py:96-109 | an exported value contains no object with `as_dict` at the top or inside a list or tuple |
| DataClass.ExportFixesExported | d8analysis/data/dataclass.py:96-109 | exporting an already exported value changes nothing |
| DataClass.ExportIdempotent | d8analysis/data/dataclass.py:96-109 | exporting twice is exporting once |
| DataClass.ExportKeepsContainers | d8analysis/data/dataclass.py:100-101 | lists stay lists and tuples stay tuples, keeping their lengths |
| DataClass.ImmutableAttrs | d8analysis/data/dataclass.py:72-73 | the attributes `__repr__` shows are exactly those with a value of an immutable type |
| DataClass.Repr | d8analysis/data/dataclass.py:67-76 | the text is the class name and "(", then the immutable attributes in order as k=repr(v) joined by ", ", then ")" |
| DataClass.ReprSkipsMutable | d8analysis/data/dataclass.py:67-76 | an attribute of a mutable type does not change `__repr__` |
| DataClass.ReprAppendsImmutable | d8analysis/data/dataclass.py:67-76 | an attribute of an immutable type shows last, after ", " when other attributes show before it |
| DataClass.StrLinesOnlyImmutable | d8analysis/data/dataclass.py:82-85 | only entries with immutable values produce lines |
| DataClass.StrHeader | d8analysis/data/dataclass.py:79-81 | the header is two line breaks and then the class name at the position `center(64)` chooses; a name of 64 characters or more is kept whole |
| DataClass.StrHeaderPadding | d8analysis/data/dataclass.py:79-81 | around a shorter name the 64 columns hold only spaces |
| DataClass.ToStr | d8analysis/data/dataclass.py:78-88 | the loop produces the header, one right-justified line per immutable entry of `as_dict`, and two line breaks |
| Categories.Levels | explorer/analysis/univariate.py:64 | the levels counted are the column's present cells: a label occurs as a level exactly when some cell holds it, and exactly as many times as there are cells holding it; missing cells are dropped |
| Categories.LevelsAppend | explorer/analysis/univariate.py:64 | the levels of two blocks of rows are those of the first block followed by those of the second, so levels keep row order |
| Categories.LevelsSnoc | explorer/analysis/univariate.py:64 | one more row adds its label at the end, or nothing when the cell is missing |
| Categories.LabelLeTotalOrder | explorer/analysis/univariate.py:129-130 | the level order used for sorting is total, transitive and antisymmetric |
| Categories.Tally | explorer/analysis/univariate.py:82 | `value_counts(sort=False)` has one entry per distinct level, in order of first appearance, each with its number of occurrences |
| Categories.TallyAppendsNewLevel | explorer/analysis/univariate.py:82 | a level seen for the first time goes after all earlier levels |
| Categories.ValueCountsSorted | explorer/analysis/univariate.py:64 | `value_counts()` has distinct levels, exactly the levels present, each with its count, in non-increasing order of count |
| Categories.PermutedTable | explorer/analysis/univariate.py:64 | reordering a tally keeps distinct levels and true counts |
| Categories.RowsFromMonotone | explorer/analysis/univariate.py:66 | the cumulative percentage never decreases |
| Categories.RowsFromLast | explorer/analysis/univariate.py:66 | the last cumulative percentage covers all counts |
| Categories.RowsOfCounts | explorer/analysis/univariate.py:64-69 | one table row per counted level, with its count |
| Categories.RowsPercent | explorer/analysis/univariate.py:65-66 | % is count / total × 100, and Cum % ends at 100 |
| Categories.PercentOfWhole | explorer/analysis/univariate.py:65-66 | the whole is 100% |
| Categories.Frequency | explorer/analysis/univariate.py:53-69 | an unknown column is a KeyError. Otherwise the columns are Count, % and Cum %. There is one row per distinct level with its count, counts are non-increasing, and % is count over total × 100. Cum % never decreases and ends at 100 (the same for `CategoricalOne`, explorer/univariate.py lines 40-56) |
| Categories.ByLevelPreorder | explorer/analysis/univariate.py:136-137 | `sort_index` compares entries by level with a total preorder |
| Categories.Series.constructor | explorer/analysis/univariate.py:82 | a series pairs an index with values of the same length |
| Categories.Series.SortIndex | explorer/analysis/univariate.py:136-137 | in-place `sort_index` reorders the entries by level, and the index ends sorted |
| Categories.SameCategoriesIff | explorer/analysis/univariate.py:129-134 | the categories match exactly when the sorted observed index equals the sorted expected index |
| Categories.ScalarNeverMatchesStrings | explorer/analysis/univariate.py:126-134 | a scalar given as expected frequencies becomes a one-entry series at index 0, which never matches string categories |
| Categories.ValSort | explorer/analysis/univariate.py:122-138 | mismatched categories are a ValueError and leave both series untouched. Otherwise both are sorted in place by category; a non-Series expected is first made a new series (the same for `CategoricalOne`, explorer/univariate.py lines 109-125) |
| Categories.Observed | explorer/analysis/univariate.py:82 | the observed series has one entry per distinct level |
| Categories.Judged | explorer/analysis/univariate.py:89-95 | the library's statistic and p are recorded as a "Chi-Square Goodness of Fit" result for the variable; its exception propagates |
| Categories.TestDistributionResult | explorer/analysis/univariate.py:71-95 | an unknown column is a KeyError; a success records the analyzer, the test name and the variable |
| Categories.AlignedFrequencies | explorer/analysis/univariate.py:84-86 | with matching categories, observed and expected are handed over in the same ascending category order |
| Categories.TestAgainst | explorer/analysis/univariate.py:84-86 | with expected frequencies: a ValueError exactly when the categories differ, leaving a given Series unchanged; otherwise `chisquare` on both value lists in ascending category order, and a given Series is left sorted whatever `chisquare` then does |
| Categories.TestDistribution | explorer/analysis/univariate.py:71-95 | the outcome is TestDistributionResult. A given expected Series is left sorted in place whenever the run gets past `_valsort`, whatever `chisquare` then does, and is left unchanged when the column is unknown or the categories differ (the same for `CategoricalOne`, explorer/univariate.py lines 58-82) |
| Univariate.KSMethod | explorer/analysis/univariate.py:367 | "approx" exactly when approx is set, "exact" otherwise |
| Univariate.Record | explorer/analysis/univariate.py:350-360 | a result records the analyzer, test, distribution, method, statistic, p and variable; a library exception passes through |
| Univariate.KSTest | explorer/analysis/univariate.py:362-382 | an unknown distribution is a KeyError; a result records the looked-up distribution and the KS method |
| Univariate.ChiSquare | explorer/analysis/univariate.py:323-335 | an unknown distribution is a KeyError; a result is a chi-square goodness of fit naming the distribution |
| Univariate.Dispatch | explorer/analysis/univariate.py:182-188 | Shapiro-Wilk exactly for "normal" with fewer than 50 rows; otherwise chi-square exactly when discrete; otherwise KS |
| Univariate.TestDistributionAsWritten | explorer/analysis/univariate.py:164-188 | `test_distribution` as written: an unknown column is a KeyError |
| Univariate.DiscreteBranchRaises | explorer/analysis/univariate.py:185-186 | as written, every request that reaches the discrete branch is a TypeError for the missing `kwargs` argument |
| Univariate.TestDistribution | explorer/analysis/univariate.py:164-188 | the corrected dispatch: the test run is Shapiro-Wilk, chi-square or KS exactly as Dispatch chooses, and a KS result records the method |
| Univariate.CorrectedAgreesOutsideDiscrete | explorer/analysis/univariate.py:182-188 | outside the discrete branch the corrected and written versions agree |
| Univariate.CorrectedDiscreteReachesChiSquare | explorer/analysis/univariate.py:185-186 | corrected, the discrete branch runs the chi-square test with the caller's keyword arguments |
| AnalysisBase.DTypeImplications | explorer/analysis/base.py:65-79 | discrete and continuous columns are numeric, and no column is both categorical and numeric |
| AnalysisBase.KindOf | explorer/analysis/base.py:90-95 | the four known dtype labels; any other is a KeyError |
| AnalysisBase.IsKind | explorer/analysis/base.py:65-79 | a missing column is a KeyError; otherwise the answer is whether its dtype is of that kind |
| AnalysisBase.CheckName | explorer/analysis/base.py:81-86 | a KeyError "Data has no attribute …" exactly when the name is not a column |
| AnalysisBase.CheckOne | explorer/analysis/base.py:96-100 | an entry passes exactly when its label is known, its column exists and its dtype fits; a wrong dtype is a TypeError naming both |
| AnalysisBase.CheckDtypes | explorer/analysis/base.py:88-100 | the check passes exactly when every entry passes; a failure is the failure of one entry |
| AnalysisBase.Wrapped | explorer/analysis/base.py:109 | every label with its spaces replaced by line breaks |
| AnalysisBase.WrappedIdempotent | explorer/analysis/base.py:109 | wrapping twice is wrapping once |
| AnalysisBase.AxisMatch | explorer/analysis/base.py:106 | the x branch runs for "x" and "X" only, and the y branch for "y" and "Y" only |
| AnalysisBase.WrapTicklabels | explorer/analysis/base.py:102-120 | the same axes come back; for x (either case) every axes' x labels are wrapped and sized, likewise for y, and nothing else changes |
| AnalysisBase.WrapX | explorer/analysis/base.py:106-111 | every axes' x tick labels are wrapped and take the font size |
| AnalysisBase.WrapY | explorer/analysis/base.py:113-118 | every axes' y tick labels are wrapped and take the font size |
| AnalysisBase.WrappedLabels | explorer/analysis/base.py:109 | a wrapped label has no space, keeps its length and keeps every other character |
| GoodnessOfFitChiSquare.ObservedTable | explorer/stats/goodness_of_fit/chisquare.py:99 | one entry per distinct level present, each with its number of occurrences, in ascending level order, the counts summing to the number of values |
| GoodnessOfFitChiSquare.ObservedCategories | explorer/stats/goodness_of_fit/chisquare.py:99-104 | dof + 1 is the number of distinct levels, and the counts sum to the number of present values |
| GoodnessOfFitChiSquare.ExpectedAligned | explorer/stats/goodness_of_fit/chisquare.py:99-102 | when the dict's keys are the data's levels, the sorted expected and observed frequencies line up category by category |
| GoodnessOfFitChiSquare.Counts | explorer/stats/goodness_of_fit/chisquare.py:99 | the observed array is the table's counts in order |
| GoodnessOfFitChiSquare.ExpectedValues | explorer/stats/goodness_of_fit/chisquare.py:101-102 | one expected frequency per entry of the dict |
| GoodnessOfFitChiSquare.CallResult | explorer/stats/goodness_of_fit/chisquare.py:114-132 | dof is the number of categories − 1, N is len(data), and the observed counts are kept. The expected slot holds the sorted expected values, or the placeholder exactly when none were given |
| GoodnessOfFitChiSquare.ChiSquareGOFTest.constructor | explorer/stats/goodness_of_fit/chisquare.py:65-69 | alpha and the profile are stored; no data and no result yet |
| GoodnessOfFitChiSquare.ChiSquareGOFTest.Call | explorer/stats/goodness_of_fit/chisquare.py:86-132 | the data is stored first; a library exception keeps the previous result; on success the result becomes CallResult |
| GoodnessOfFitChiSquare.NewChiSquareGOFTest | explorer/stats/goodness_of_fit/chisquare.py:65-69 | construction fails exactly when the "x2gof" profile is missing |
| GoodnessOfFitKSOne.CallResult | explorer/stats/goodness_of_fit/ksone.py:166-179 | the library's statistic and p, the report "(N=n)=…" for n = len(data), the reference name and the data |
| GoodnessOfFitKSOne.KSOneTest.constructor | explorer/stats/goodness_of_fit/ksone.py:110-115 | alpha and the profile are stored; no data and no result yet |
| GoodnessOfFitKSOne.KSOneTest.Call | explorer/stats/goodness_of_fit/ksone.py:131-179 | the data is stored before anything can fail. A name outside DISTRIBUTIONS is a KeyError and a library exception propagates; both keep the previous result. Otherwise the result becomes CallResult, from 100 Monte Carlo samples |
| GoodnessOfFitKSOne.NewKSOneTest | explorer/stats/goodness_of_fit/ksone.py:110-115 | construction fails exactly when the "ks1" profile is missing |
| GoodnessOfFitKSOne.RejectFill | explorer/stats/goodness_of_fit/ksone.py:66-73 | nothing is shaded exactly when no drawn point lies beyond the statistic; otherwise the fill runs from the first such point to the end of the curve |
| GoodnessOfFitKSOne.ShadedBeyondStatistic | explorer/stats/goodness_of_fit/ksone.py:66-73 | on a curve drawn left to right, the shaded points are exactly those beyond the statistic |
| GoodnessOfFitKSOne.Plot | explorer/stats/goodness_of_fit/ksone.py:46-80 | the density is drawn over 100 points between the 1% and 99.9% quantiles. The reject fill is taken from the first curve of the axes (`ax.lines[0]`): the new density on axes that held no curve, the older curve on a caller's axes that already hold one. The title names the capitalised reference distribution and the result, and the axis labels are set |
| GoodnessOfFitKSOne.DrawShaded | explorer/stats/goodness_of_fit/ksone.py:60-73 | the curve is added, then the region beyond the statistic is shaded under the first curve of the axes, which is the new curve when the axes held none |
| GoodnessOfFitKSOne.CurveShadedBeyondStatistic | explorer/stats/goodness_of_fit/ksone.py:58-73 | when the 1% quantile lies at or below the 99.9% quantile, the shading of the drawn curve covers exactly the points beyond the statistic |
| IndependenceChiSquare.CallResult | explorer/stats/independence/chisquare.py:192-210 | the statistic is always "X²". The result keeps the library's figures, dof and expected table, and the cross tabulation as observed; N is the number of rows |
| IndependenceChiSquare.ChiSquareIndependenceTest.constructor | explorer/stats/independence/chisquare.py:153-157 | alpha and the profile are stored; no data and no result yet |
| IndependenceChiSquare.ChiSquareIndependenceTest.Call | explorer/stats/independence/chisquare.py:174-210 | the data is stored first. A table with fewer than two columns is an IndexError and a library exception propagates; both keep the previous result. Otherwise the first two columns are cross-tabulated and the result becomes CallResult |
| IndependenceChiSquare.NewChiSquareIndependenceTest | explorer/stats/independence/chisquare.py:153-157 | construction fails exactly when the "x2ind" profile is missing |
| IndependenceChiSquare.Block | explorer/stats/independence/chisquare.py:119-143 | the melted rows of one level of the first variable: 2m of them, observed then expected |
| IndependenceChiSquare.CombineContingencyTables | explorer/stats/independence/chisquare.py:106-144 | the columns are Dataset, the second column's name, the first column's name and Count; the rows are the blocks of every level in order. A table with fewer than two columns is an IndexError |
| IndependenceChiSquare.BlocksShape | explorer/stats/independence/chisquare.py:136-143 | 2m rows per level, each labelled Observed or Expected and carrying a level of the first variable |
| IndependenceChiSquare.BlocksKeysDistinct | explorer/stats/independence/chisquare.py:136-143 | with distinct levels, no two rows share table, column level and row level |
| IndependenceChiSquare.CombinedTableRows | explorer/stats/independence/chisquare.py:106-144 | the long table has 2·n·m rows, all labelled Observed or Expected, no key repeated. Each (level, level) pair appears once under each label, with its observed or expected frequency |
| Dataset.Keep | edation/data/base.py:122-125 | the kept columns are exactly those whose name is (or is not) listed, in their original order |
| Dataset.Dataset.constructor | edation/data/base.py:37-39 | the frame is stored |
| Dataset.Dataset.Len | edation/data/base.py:41-43 | `len` is the row count, which every column of a well-formed frame holds |
| Dataset.Dataset.Columns | edation/data/base.py:53-56 | the column names in order |
| Dataset.Dataset.Select | edation/data/base.py:111-128 | with `exclude` given, the columns not in it, whatever `include` says. Otherwise with `include` given, the columns in it, ignoring unknown names; otherwise every column. The result is an ordered subsequence of the columns and keeps all rows |
| Dataset.Dataset.Overview | edation/data/base.py:77-92 | observations, variables, cells = observations × variables, and the reported size |
| Dataset.Dataset.Info | edation/data/base.py:63-75 | one row per column, in column order |
| Dataset.Present | edation/data/base.py:71 | the distinct present values of a column |
| Dataset.CardinalityAtMostValid | edation/data/base.py:68-71 | no column has more distinct values than present cells |
| Dataset.InfoCounts | edation/data/base.py:66-73 | in every row Valid + Null is the row count and Cardinality ≤ Valid. Validity is undefined exactly when there are no rows, and otherwise lies in [0, 1]; Percent Unique is at most Validity |
| Frames.CountPresent | edation/data/base.py:68 | `count()` of a column is at most its length |
| Frames.CountMissing | edation/data/base.py:69 | `isna().sum()` of a column is at most its length |
| Frames.PresentPlusMissing | edation/data/base.py:68-69 | every cell is either present or missing |
| Frames.Get | explorer/analysis/base.py:83 | `name in df.columns` holds exactly when the column can be fetched; otherwise KeyError(name) |
| Frames.GetFrom | explorer/analysis/base.py:67 | `df[name]` is the column of that name, or a KeyError exactly when there is none |
| Identity.IdShape | explorer/service/identity.py:55-69 | a draw below 10^size gives exactly size digits; the draw 10^size, which `randint` can return, gives size + 1 |
| Identity.FirstFresh | explorer/service/identity.py:67-74 | the first draw whose id is not yet listed, all earlier draws being listed; none when every draw is listed |
| Identity.RandomIDGen.constructor | explorer/service/identity.py:49-56 | n = 0, an empty list, max = 10^size; the generator is valid when the stored list has no duplicates |
| Identity.RandomIDGen.Save | explorer/service/identity.py:100-108 | the file holds the current list |
| Identity.RandomIDGen.Load | explorer/service/identity.py:89-98 | the list becomes the stored one; a missing key is a KeyError unless ignored, and the list is unchanged |
| Identity.RandomIDGen.Exists | explorer/service/identity.py:110-113 | true exactly when the file holds a list |
| Identity.RandomIDGen.Delete | explorer/service/identity.py:115-124 | the key is gone from the file; a missing key is a KeyError only when errors are not ignored |
| Identity.RandomIDGen.Iter | explorer/service/identity.py:58-60 | the list is saved |
| Identity.RandomIDGen.Next | explorer/service/identity.py:62-74 | StopIteration once n > max, and KeyError with no stored list; both change nothing. Otherwise the returned id was not listed before; the list grows by exactly that id at the end and is saved; n grows by one. The lists stay duplicate-free |
| Identity.RandomIDGen.Reset | explorer/service/identity.py:80-87 | with a "y" in the answer the list and the file become empty; otherwise nothing changes; duplicates never appear |
| Plotting.FirstAbove | d8analysis/quantitative/inferential/distribution/kstest.py:130 | `np.where(x > v)[0][0]`: the first index whose value exceeds v, all earlier ones not exceeding it; none exactly when no value exceeds v |
| Plotting.Linspace | explorer/stats/goodness_of_fit/ksone.py:58 | num points, the first at start and the last at stop, in non-decreasing order when start ≤ stop |
| Plotting.FirstLineData | explorer/stats/goodness_of_fit/ksone.py:63-65 | `ax.lines[0].get_xydata()`: the x and y values of the first curve, as many of each; none exactly when the axes hold no curve |
| Plotting.FirstLineDataOfFresh | explorer/stats/goodness_of_fit/ksone.py:58-65 | on axes that held no curve, the first curve after drawing one is the one just drawn, whatever is added after it |
| Plotting.DataOfZip | explorer/stats/goodness_of_fit/ksone.py:60-65 | reading back a drawn curve's points gives the x and y values it was drawn from |
| Plotting.Axes.Add | explorer/stats/goodness_of_fit/ksone.py:71 | the artist is appended to the axes |
| Text.SpacesToNewlinesLeavesNoSpace | explorer/analysis/base.py:109 | `replace(" ", "\n")` leaves no space |
| Text.SpacesToNewlinesIdempotent | explorer/analysis/base.py:109 | replacing twice is replacing once |
| Text.Capitalize | explorer/stats/goodness_of_fit/ksone.py:75 | `str.capitalize` |
| Text.Center | d8analysis/data/dataclass.py:81 | `str.center(64)`: the text at CPython's left margin, spaces elsewhere, longer text kept whole |
| Text.JoinSnoc | d8analysis/data/dataclass.py:69-70 | joining one more part adds the separator and the part, or just the part when it is the first |
| Text.RJust | d8analysis/data/dataclass.py:84 | `str.rjust(32)` |
| Text.ZFill | explorer/service/identity.py:69 | `zfill(width)` pads on the left with zeros up to the width and keeps longer strings |
| Text.Decimal | explorer/service/identity.py:69 | `str` of a non-negative integer: at least one character, all digits |
| Text.DecimalValue | explorer/service/identity.py:69 | `str(n)` denotes n (DigitsValue, read independently from the left) and starts with a zero only for n = 0 |
| Text.DecimalOfDigits | explorer/service/identity.py:69 | the inverse direction: every digit string without a leading zero is `str` of the number it denotes |
| Text.Lower | explorer/analysis/base.py:106 | `lower()`: each character lower-cased, length kept |
| Text.DecimalOfPow10 | explorer/service/identity.py:55 | `str(10**k)` has k + 1 digits |
| Text.DecimalLength | explorer/service/identity.py:68-69 | the decimal form of n fits in k digits exactly when n < 10^k |

## Left out

- Drawing. Seaborn and matplotlib output is left out. The plot methods are modelled only as the artists, titles and labels they add to an `Axes` object. `plot_obs_exp`, `plotpdf`, `plotcdf`, `_plot_cdf`, `_plot_pdf`, `plot_distribution`, `gofplot`, `qqplot`, `cdfplot` and `boxplot` are not modelled.
- Numerical statistics. scipy's chisquare, kstest, pearsonr, ttest_ind, chi2_contingency, crosstab, goodness_of_fit, shapiro, rvs, pdf and ppf are foreign calls. They are parameters, so nothing is assumed about their values beyond what they return or raise.
- Univariate.StatTestOneGoF: the record is not defined in explorer/base.py, yet explorer/analysis/univariate.py:26 and tests/test_univariate/test_quantitative.py:24 import it from there, so as written the module fails to import. The model's record is inferred from its call sites (explorer/analysis/univariate.py:328-381); the keyword `method=` (lines 344 and 378) becomes the field `ksMethod`.
- Text.Lower, Text.Capitalize: only ASCII case mapping is modelled. Python's `str.lower` and `str.capitalize` also map other Unicode letters, so the axis match in `AnalysisBase`, the KS goodness-of-fit title and the capitalised `__str__` keys can differ for non-ASCII text.
- Number rendering. `round(x, k)` and `str(x)` for floats are the `Format` functions. `int(alpha*100)` is modelled as truncation.
- Configuration and persistence. The statistics configuration file is read through an I/O service that is not part of this model, so the profiles are a `map` parameter. The shelve file of the id generator is the field `store`. The answer `input()` would read is the `answer` parameter. Logging is dropped.
- explorer.stats.profile is not part of this model. The explorer tests create their profiles with `InferentialBase.Create`, the d8analysis profile factory of the same shape.
- `QuantStats.compute` is not part of this model. It is a parameter whose `length` the t test reads.
- Dependency injection, `__post_init__` styling and the canvas each result creates are left out.
- Pearson: `confidence_interval(0.05)` is computed only for logging, so it is left out.
- Dataset: `sample`, `subset`, `head` and `as_df` pass straight through to pandas and are not modelled. `__getitem__` and `summary` are abstract.
- Dataset.Dataset.Info: `round(info, 2)` is not applied, and each column's memory size is a parameter. A ratio over zero rows, which pandas shows as NaN, is None.
- Dataset.Dataset.Select: frames with two columns of the same name are not modelled. There pandas would return every column of each listed name once per listing.
- IndependenceChiSquare.CombineContingencyTables: `print(dfc)` is left out. The method requires the shapes crosstab and chi2_contingency always give (one row per level of the first variable, one entry per level of the second).
- Identity.RandomIDGen.Next: the `while True` loop draws until a fresh id comes up. The model draws from a given sequence and returns `OutOfDraws` when it runs out, which is where the source would keep drawing (forever, once every id from 0 to 10^size is listed).
- Identity.RandomIDGen.Next: `size` is a natural number; a negative size, for which Python computes a fractional maximum, is not modelled.
- Categories.ValSort, Categories.SameCategoriesIff, Categories.AlignedFrequencies, Categories.TestDistribution, GoodnessOfFitChiSquare.ObservedTable: the labels are numbers and strings under one total order, numbers first. pandas raises TypeError when it sorts an index that mixes numbers and strings; the model sorts such an index and goes on.
- Categories.Levels: datetimes, lists, tuples, dicts and other objects are dropped from a column like missing cells. pandas counts datetimes as levels of their own, and `value_counts` raises TypeError on unhashable lists and dicts; the model has neither behaviour.
- d8analysis/quantitative/statistical/base.py is not part of this model. The t test (d8analysis/quantitative/statistical/centrality/ttest.py:24-29) and the distribution chi-square test (d8analysis/quantitative/statistical/distribution/chisquare.py:25-26) import their profile factory and the `_report_pvalue` and `_report_alpha` helpers from it. The model takes these to be those of d8analysis/quantitative/inferential/base.py (`InferentialBase.Create`, `InferentialBase.ReportPValue`, `InferentialBase.ReportAlpha`), in NewChiSquareTest, NewTTest, both Infer functions and the report functions.
- IndependenceChiSquare.ChiSquareIndependenceTest.Call: `crosstab` is taken never to fail; only the test and the column access raise.
- Pearson.StrengthOf: a NaN r is not modelled. pearson.py would fall through every band test to its last branch.
- Pearson.Columns: `a` and `b` given as arrays instead of column names are not modelled.
- `UniqueIDGen`, the broken snapshots (explorer/stats/goodness_of_fit/kstestone.py, explorer/bivariate.py `test_independence`, explorer/domain/base.py `create`, explorer/stats/base.py, explorer/stats/result.py) and the pandas aggregation wrappers are outside the modelled core.

## Findings

| source | as written | input that shows it | evidently intended | confidence | as-written member | corrected member |
|---|---|---|---|---|---|---|
| d8analysis/quantitative/statistical/distribution/chisquare.py:94-97 | `run` overwrites `self._expected` (None) with the placeholder tuple ("Equal Frequencies among Groups",), which the next `run` passes to `chisquare` as `f_exp` | a `ChiSquareTest` built without expected frequencies, run twice: the second call hands the placeholder to the library | the placeholder is for the result only, and a rerun again tests against equal frequencies | not executed | DistributionChiSquare.RerunUsesPlaceholder | DistributionChiSquare.StepFixed |
| explorer/analysis/univariate.py:185-186 | the discrete branch calls `self._chisq(name=name, distribution=distribution)`, but `_chisq` (line 323) also requires the positional parameter `kwargs` | `test_distribution(name, "gamma", discrete=True)` on any column: TypeError before any test runs | the chi-square test runs, receiving the caller's `**kwargs` | not executed | Univariate.DiscreteBranchRaises | Univariate.TestDistribution |
