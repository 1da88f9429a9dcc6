/** The Pearson correlation test of
    d8analysis/quantitative/inferential/relational/pearson.py. The coefficient
    and its p-value come from the statistics library, passed in as `pearsonr`. */
module Pearson {
  import opened Wrappers
  import opened Text
  import opened DataClass
  import opened Frames
  import opened InferentialBase

  const TestId: string := "pearson"

  function Abs(x: real): real { if x < 0.0 then -x else x }

  /** The bands of the coefficient's magnitude. */
  datatype Strength = VeryHigh | High | Moderate | Low | Negligible

  /** The band |r| falls in: at least 0.9, 0.7, 0.5, 0.3, or below. */
  function StrengthOf(r: real): (s: Strength)
    ensures s == VeryHigh <==> Abs(r) >= 0.9
    ensures s == High <==> 0.7 <= Abs(r) < 0.9
    ensures s == Moderate <==> 0.5 <= Abs(r) < 0.7
    ensures s == Low <==> 0.3 <= Abs(r) < 0.5
    ensures s == Negligible <==> Abs(r) < 0.3
  {
    var m := Abs(r);
    if m >= 0.9 then VeryHigh
    else if m >= 0.7 then High
    else if m >= 0.5 then Moderate
    else if m >= 0.3 then Low
    else Negligible
  }

  function StrengthWord(s: Strength): string {
    match s
    case VeryHigh => "very high"
    case High => "high"
    case Moderate => "moderate"
    case Low => "low"
    case Negligible => "negligible"
  }

  /** "negative" below zero, "positive" otherwise. */
  function Direction(r: real): string {
    if r < 0.0 then "negative" else "positive"
  }

  /** `_interpret_r`: the band of |r| and, above the negligible band, the sign. */
  function InterpretR(r: real): (s: string)
    ensures StrengthOf(r) == Negligible ==> s == "negligible correlation."
    ensures StrengthOf(r) != Negligible ==>
              s == StrengthWord(StrengthOf(r)) + " " + Direction(r) + " correlation."
  {
    var direction := Direction(r);
    var m := Abs(r);
    assert "very high " == StrengthWord(VeryHigh) + " " && "high " == StrengthWord(High) + " ";
    assert "moderate " == StrengthWord(Moderate) + " " && "low " == StrengthWord(Low) + " ";
    if m >= 0.9 then "very high " + direction + " correlation."
    else if m >= 0.7 then "high " + direction + " correlation."
    else if m >= 0.5 then "moderate " + direction + " correlation."
    else if m >= 0.3 then "low " + direction + " correlation."
    else "negligible correlation."
  }

  /** Negating the coefficient keeps its band and flips its direction. */
  lemma InterpretRNegated(r: real)
    requires r != 0.0
    ensures StrengthOf(-r) == StrengthOf(r)
    ensures Direction(-r) != Direction(r)
    ensures StrengthOf(r) != Negligible ==>
              InterpretR(-r) == StrengthWord(StrengthOf(r)) + " " + Direction(-r) + " correlation."
  {
  }

  lemma InterpretPerfect()
    ensures InterpretR(1.0) == "very high positive correlation."
    ensures InterpretR(-1.0) == "very high negative correlation."
    ensures InterpretR(0.0) == "negligible correlation."
  {
    assert Direction(1.0) == "positive" && Direction(-1.0) == "negative";
    assert "very high " + "positive" + " correlation." == "very high positive correlation.";
    assert "very high " + "negative" + " correlation." == "very high negative correlation.";
  }

  /** `_report_results`. */
  function ReportResults(r: real, pvalue: real, dof: int, fmt: Format): string
  {
    "Pearson Correlation Test\nr(" + IntToString(dof) + ")=" + fmt.round2(r) + ", "
      + ReportPValue(pvalue, fmt.round3(pvalue)) + "\n" + Capitalize(InterpretR(r))
  }

  /** The inference sentence: the interpretation and figures, then whether the
      coefficient is statistically significant, by comparing p with alpha. */
  function Inference(r: real, pvalue: real, alpha: real, dof: int, fmt: Format): (s: string)
    ensures s == InferenceText(r, pvalue, alpha, dof, fmt, NotRejected(pvalue, alpha))
  {
    if pvalue > alpha then InferenceText(r, pvalue, alpha, dof, fmt, true)
    else InferenceText(r, pvalue, alpha, dof, fmt, false)
  }

  /** Whether the coefficient is significant can be read off the sentence:
      the two versions differ for the same figures. */
  lemma InferenceDistinguishes(r: real, pvalue: real, alpha: real, dof: int, fmt: Format)
    ensures InferenceText(r, pvalue, alpha, dof, fmt, true) != InferenceText(r, pvalue, alpha, dof, fmt, false)
  {
    var prefix := InferencePrefix(r, pvalue, dof, fmt);
    var yes, no := Significance(pvalue, alpha, fmt, true), Significance(pvalue, alpha, fmt, false);
    assert (prefix + yes)[|prefix|] == yes[0] == 'H';
    assert (prefix + no)[|prefix|] == no[0] == 'F';
  }

  /** The interpretation and figures that open the inference. */
  function InferencePrefix(r: real, pvalue: real, dof: int, fmt: Format): string {
    "The two variables had " + InterpretR(r) + ", r(" + IntToString(dof) + ")=" + fmt.round2(r) + ", "
      + ReportPValue(pvalue, fmt.round3(pvalue)) + ".\n"
  }

  /** The sentence on significance that closes the inference. */
  function Significance(pvalue: real, alpha: real, fmt: Format, insignificant: bool): string {
    var pct := IntToString(Trunc(alpha * 100.0));
    if insignificant
    then "However, the pvalue, " + fmt.round2(pvalue) + " is greater than level of significance " + pct
         + "% indicating that the correlation coefficient is not statistically significant."
    else "Further, the pvalue, " + fmt.round2(pvalue) + " is lower than level of significance " + pct
         + "% indicating that the correlation coefficient is statistically significant."
  }

  function InferenceText(r: real, pvalue: real, alpha: real, dof: int, fmt: Format, insignificant: bool): string {
    InferencePrefix(r, pvalue, dof, fmt) + Significance(pvalue, alpha, fmt, insignificant)
  }

  /** What a Pearson result carries beyond the common fields. */
  datatype PearsonData = PearsonData(data: Frame, a: string, b: string)

  /** `self._data[self._a].values` and the same for b: a TypeError without
      data, a KeyError for a missing or absent column name. */
  function Columns(data: Option<Frame>, a: Option<string>, b: Option<string>): (r: Result<(seq<Value>, seq<Value>)>)
    ensures data.None? ==> r.Err? && r.error.TypeError?
    ensures data.Some? && a.None? ==> r == Err(KeyError("None"))
    ensures r.Ok? <==> data.Some? && a.Some? && b.Some? && data.value.HasColumn(a.value) && data.value.HasColumn(b.value)
    ensures r.Ok? ==> r.value.0 == data.value.Get(a.value).value.cells && r.value.1 == data.value.Get(b.value).value.cells
  {
    match data
    case None => Err(TypeError("'NoneType' object is not subscriptable"))
    case Some(df) =>
      var ka := if a.Some? then a.value else "None";
      var x :- df.Get(ka);
      if a.None? then Err(KeyError("None"))
      else
        var kb := if b.Some? then b.value else "None";
        var y :- df.Get(kb);
        if b.None? then Err(KeyError("None"))
        else Ok((x.cells, y.cells))
  }

  /** The result `run` records for coefficient r and p-value p: the profile's
      name, hypothesis, H0 and statistic, both figures, and the phrases built
      with `len(data) - 2` degrees of freedom. */
  function RunResult(profile: Record, df: Frame, a: string, b: string, alpha: real,
                   r: real, pvalue: real, fmt: Format): (res: TestResult<PearsonData>)
    ensures res.value == r && res.pvalue == pvalue && res.alpha == alpha
    ensures res.test == Field(profile, "name") && res.statistic == Field(profile, "statistic")
    ensures res.hypothesis == Field(profile, "hypothesis") && res.H0 == Field(profile, "H0")
    ensures res.inference == InferenceText(r, pvalue, alpha, df.nrows - 2, fmt, NotRejected(pvalue, alpha))
    ensures res.result == ReportResults(r, pvalue, df.nrows - 2, fmt)
    ensures res.interpretation.None? && res.detail == PearsonData(df, a, b)
  {
    var dof := df.nrows - 2;
    TestResult(Field(profile, "name"), Field(profile, "hypothesis"), Field(profile, "H0"),
               Field(profile, "statistic"), r, pvalue, Inference(r, pvalue, alpha, dof, fmt), alpha,
               ReportResults(r, pvalue, dof, fmt), None, PearsonData(df, a, b))
  }

  class PearsonCorrelationTest {
    const data: Option<Frame>
    const a: Option<string>
    const b: Option<string>
    const alpha: real
    const profile: Record
    var result: Option<TestResult<PearsonData>>

    /** The constructor, given the profile `StatTestProfileTwo.create("pearson")` made. */
    constructor (profile: Record, data: Option<Frame>, a: Option<string>, b: Option<string>, alpha: real := DefaultAlpha)
      ensures this.profile == profile && this.data == data && this.a == a && this.b == b && this.alpha == alpha
      ensures result.None?
    {
      this.profile := profile;
      this.data := data;
      this.a := a;
      this.b := b;
      this.alpha := alpha;
      result := None;
    }

    /** `run`: look the two columns up, call the library, and on success
        record `RunResult` of the coefficient and its p-value. Any exception leaves the
        previous result in place and propagates. */
    method Run(pearsonr: (seq<Value>, seq<Value>) -> StatOutcome, fmt: Format) returns (o: Outcome)
      modifies this`result
      ensures match Columns(data, a, b)
              case Err(e) => o == Fail(e) && result == old(result)
              case Ok(cols) =>
                match pearsonr(cols.0, cols.1)
                case Raised(e) => o == Fail(e) && result == old(result)
                case Returned(r, p) =>
                  o == Pass && result == Some(RunResult(profile, data.value, a.value, b.value, alpha, r, p, fmt))
    {
      var cols := Columns(data, a, b);
      if cols.Err? {
        return Fail(cols.error);
      }
      var out := pearsonr(cols.value.0, cols.value.1);
      if out.Raised? {
        return Fail(out.error);
      }
      result := Some(RunResult(profile, data.value, a.value, b.value, alpha, out.statistic, out.pvalue, fmt));
      o := Pass;
    }
  }

  /** Construction: create the two-variable profile (a KeyError when the
      configuration has no "pearson" entry), then the test. */
  method NewPearsonCorrelationTest(profiles: map<string, Entry>, data: Option<Frame>, a: Option<string>,
                                   b: Option<string>, alpha: real := DefaultAlpha)
    returns (r: Result<PearsonCorrelationTest>)
    ensures r.Err? <==> TestId !in profiles
    ensures r.Ok? ==> fresh(r.value) && r.value.profile == Create(ProfileTwo, profiles, TestId).value
    ensures r.Ok? ==> r.value.data == data && r.value.a == a && r.value.b == b && r.value.alpha == alpha
    ensures r.Ok? ==> r.value.result.None?
  {
    var profile := Create(ProfileTwo, profiles, TestId);
    if profile.Err? {
      return Err(profile.error);
    }
    var t := new PearsonCorrelationTest(profile.value, data, a, b, alpha);
    return Ok(t);
  }
}
