/** The one-way chi-square test of
    d8analysis/quantitative/statistical/distribution/chisquare.py: observed
    frequencies against expected ones, or against equal frequencies when none
    are given. The statistic and p-value come from the statistics library,
    passed in as `chisquare`. */
module DistributionChiSquare {
  import opened Wrappers
  import opened Text
  import opened DataClass
  import opened InferentialBase

  const TestId: string := "x2gof"

  /** The placeholder `run` stores when no expected frequencies were given. */
  const EqualFrequencies: string := "Equal Frequencies among Groups"

  /** The expected frequencies: absent, given, or the one-element tuple holding
      the placeholder. */
  datatype Expected = NoExpected | Frequencies(f: seq<real>) | Placeholder(text: string)

  /** What a chi-square result carries beyond the common fields. */
  datatype ChiSquareData = ChiSquareData(dof: int, observed: seq<real>, expected: Expected)

  function Sum(xs: seq<real>): real {
    if xs == [] then 0.0 else xs[0] + Sum(xs[1..])
  }

  /** The inference sentence at the level `int(alpha*100)%`. */
  function Infer(pvalue: real, alpha: real, fmt: Format): string {
    PercentInference(pvalue, alpha, fmt,
      "The evidence against a common distribution was not significant.",
      "The evidence against a common distribution is significant.")
  }

  /** "X²(dof, N=total)=statistic, p, significance". */
  function ReportResults(dof: int, observed: seq<real>, statistic: real, pvalue: real, alpha: real, fmt: Format): string {
    "X\U{00B2}(" + IntToString(dof) + ", N=" + fmt.show(Sum(observed)) + ")=" + fmt.round2(statistic) + ", "
      + ReportPValue(pvalue, fmt.round3(pvalue)) + " " + ReportAlpha(alpha)
  }

  /** The report opens with the symbol, the degrees of freedom and the sample
      size N, the sum of the observed frequencies. */
  lemma ReportNamesN(dof: int, observed: seq<real>, statistic: real, pvalue: real, alpha: real, fmt: Format)
    ensures var head := "X\U{00B2}(" + IntToString(dof) + ", N=" + fmt.show(Sum(observed)) + ")=";
            var r := ReportResults(dof, observed, statistic, pvalue, alpha, fmt);
            |head| < |r| && r[..|head|] == head
  {
  }

  /** The fields `run` fills in from the profile, the library's answer and
      the level: the result of a run on `observed` at `alpha`. */
  predicate Reports(res: TestResult<ChiSquareData>, profile: Record, observed: seq<real>, alpha: real,
                    out: StatOutcome, fmt: Format)
    requires out.Returned?
  {
    && res.test == Field(profile, "name") && res.hypothesis == Field(profile, "hypothesis")
    && res.H0 == Field(profile, "H0") && res.statistic == Str("X\U{00B2}")
    && res.value == out.statistic && res.pvalue == out.pvalue
    && res.inference == Infer(out.pvalue, alpha, fmt) && res.alpha == alpha
    && res.result == ReportResults(|observed| - 1, observed, out.statistic, out.pvalue, alpha, fmt)
    && res.interpretation.None?
  }

  /** The state of a test object that `run` reads and writes. */
  datatype State = State(expected: Expected, result: Option<TestResult<ChiSquareData>>)

  /** One `run` as written, on the state it reads and writes: call the library with the stored expected
      frequencies, replace absent ones by the placeholder, and record the
      result with `len(observed) - 1` degrees of freedom. A library exception
      changes nothing. */
  function Step(profile: Record, observed: seq<real>, alpha: real, s: State,
               chisquare: (seq<real>, Expected) -> StatOutcome, fmt: Format): (r: Result<State>)
    ensures r.Err? <==> chisquare(observed, s.expected).Raised?
    ensures r.Ok? ==> r.value.expected == (if s.expected.NoExpected? then Placeholder(EqualFrequencies) else s.expected)
    ensures r.Ok? ==> r.value.result.Some? && r.value.result.value.detail == ChiSquareData(|observed| - 1, observed, r.value.expected)
    ensures r.Ok? ==> Reports(r.value.result.value, profile, observed, alpha, chisquare(observed, s.expected), fmt)
  {
    var dof := |observed| - 1;
    var out := chisquare(observed, s.expected);
    if out.Raised? then Err(out.error)
    else
      var expected := if s.expected.NoExpected? then Placeholder(EqualFrequencies) else s.expected;
      Ok(State(expected, Some(TestResult(
        Field(profile, "name"), Field(profile, "hypothesis"), Field(profile, "H0"), Str("X\U{00B2}"),
        out.statistic, out.pvalue, Infer(out.pvalue, alpha, fmt), alpha,
        ReportResults(dof, observed, out.statistic, out.pvalue, alpha, fmt), None,
        ChiSquareData(dof, observed, expected)))))
  }

  /** A library that, like scipy, cannot read the placeholder as frequencies. */
  function PlaceholderRejecting(observed: seq<real>, expected: Expected): StatOutcome {
    if expected.Placeholder? then Raised(LibraryError("could not convert string to float"))
    else Returned(1.0, 0.5)
  }

  /** Running the test a second time is not running it once: after a first
      run without expected frequencies, the second run hands the placeholder
      to the library, which fails on it. */
  lemma RerunUsesPlaceholder(profile: Record, observed: seq<real>, alpha: real, fmt: Format)
    ensures var first := Step(profile, observed, alpha, State(NoExpected, None), PlaceholderRejecting, fmt);
            && first.Ok?
            && Step(profile, observed, alpha, first.value, PlaceholderRejecting, fmt).Err?
  {
  }

  /** One `run` as intended: the placeholder is shown in the result only, the
      stored expected frequencies stay as given. */
  function StepFixed(profile: Record, observed: seq<real>, alpha: real, s: State,
                    chisquare: (seq<real>, Expected) -> StatOutcome, fmt: Format): (r: Result<State>)
    ensures r.Err? <==> chisquare(observed, s.expected).Raised?
    ensures r.Ok? ==> r.value.expected == s.expected
    ensures r.Ok? ==> r.value.result.Some?
    ensures r.Ok? ==> r.value.result.value.detail ==
                      ChiSquareData(|observed| - 1, observed, if s.expected.NoExpected? then Placeholder(EqualFrequencies) else s.expected)
    ensures r.Ok? ==> Reports(r.value.result.value, profile, observed, alpha, chisquare(observed, s.expected), fmt)
  {
    var dof := |observed| - 1;
    var out := chisquare(observed, s.expected);
    if out.Raised? then Err(out.error)
    else
      var shown := if s.expected.NoExpected? then Placeholder(EqualFrequencies) else s.expected;
      Ok(State(s.expected, Some(TestResult(
        Field(profile, "name"), Field(profile, "hypothesis"), Field(profile, "H0"), Str("X\U{00B2}"),
        out.statistic, out.pvalue, Infer(out.pvalue, alpha, fmt), alpha,
        ReportResults(dof, observed, out.statistic, out.pvalue, alpha, fmt), None,
        ChiSquareData(dof, observed, shown)))))
  }

  /** With the fix, running twice gives the state running once gives, for any library. */
  lemma StepFixedIdempotent(profile: Record, observed: seq<real>, alpha: real, s: State,
                           chisquare: (seq<real>, Expected) -> StatOutcome, fmt: Format)
    requires chisquare(observed, s.expected).Returned?
    ensures var once := StepFixed(profile, observed, alpha, s, chisquare, fmt).value;
            StepFixed(profile, observed, alpha, once, chisquare, fmt) == Ok(once)
  {
  }

  /** For given expected frequencies the two versions agree. */
  lemma StepFixedAgreesWhenGiven(profile: Record, observed: seq<real>, alpha: real, s: State,
                                chisquare: (seq<real>, Expected) -> StatOutcome, fmt: Format)
    requires !s.expected.NoExpected?
    ensures StepFixed(profile, observed, alpha, s, chisquare, fmt) == Step(profile, observed, alpha, s, chisquare, fmt)
  {
  }

  class ChiSquareTest {
    const observed: seq<real>
    var expected: Expected
    const alpha: real
    const profile: Record
    var result: Option<TestResult<ChiSquareData>>

    /** The constructor, given the profile `StatTestProfileTwo.create("x2gof")` made. */
    constructor (profile: Record, observed: seq<real>, expected: Expected := NoExpected, alpha: real := DefaultAlpha)
      ensures this.profile == profile && this.observed == observed && this.expected == expected
      ensures this.alpha == alpha && result.None?
    {
      this.profile := profile;
      this.observed := observed;
      this.expected := expected;
      this.alpha := alpha;
      result := None;
    }

    /** `run`: the state moves as `Step` says; a library exception propagates
        and changes nothing. */
    method Run(chisquare: (seq<real>, Expected) -> StatOutcome, fmt: Format) returns (o: Outcome)
      modifies this`expected, this`result
      ensures var r := Step(profile, observed, alpha, old(State(expected, result)), chisquare, fmt);
              && (r.Err? ==> o == Fail(r.error) && expected == old(expected) && result == old(result))
              && (r.Ok? ==> o == Pass && State(expected, result) == r.value)
    {
      var dof := |observed| - 1;
      var out := chisquare(observed, expected);
      if out.Raised? {
        return Fail(out.error);
      }
      var inference := Infer(out.pvalue, alpha, fmt);
      if expected.NoExpected? {
        expected := Placeholder(EqualFrequencies);
      }
      result := Some(TestResult(
        Field(profile, "name"), Field(profile, "hypothesis"), Field(profile, "H0"), Str("X\U{00B2}"),
        out.statistic, out.pvalue, inference, alpha,
        ReportResults(dof, observed, out.statistic, out.pvalue, alpha, fmt), None,
        ChiSquareData(dof, observed, expected)));
      o := Pass;
    }
  }

  /** Construction: create the profile, then the test. */
  method NewChiSquareTest(profiles: map<string, Entry>, observed: seq<real>, expected: Expected := NoExpected,
                          alpha: real := DefaultAlpha)
    returns (r: Result<ChiSquareTest>)
    ensures r.Err? <==> TestId !in profiles
    ensures r.Ok? ==> fresh(r.value) && r.value.profile == Create(ProfileTwo, profiles, TestId).value
    ensures r.Ok? ==> r.value.observed == observed && r.value.expected == expected
    ensures r.Ok? ==> r.value.alpha == alpha && r.value.result.None?
  {
    var profile := Create(ProfileTwo, profiles, TestId);
    if profile.Err? {
      return Err(profile.error);
    }
    var t := new ChiSquareTest(profile.value, observed, expected, alpha);
    return Ok(t);
  }
}
