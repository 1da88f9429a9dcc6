/** The chi-square goodness-of-fit test of
    explorer/stats/goodness_of_fit/chisquare.py: the observed frequencies of
    the levels of a categorical series, listed in ascending level order,
    against expected frequencies given as a dict (listed in ascending key
    order), or against equal frequencies when none are given. The statistic
    and p-value come from the statistics library, passed in as `chisquare`. */
module GoodnessOfFitChiSquare {
  import opened Wrappers
  import opened Text
  import opened DataClass
  import opened Sorting
  import opened InferentialBase
  import C = Categories

  const TestId: string := "x2gof"

  /** The placeholder the result shows when no expected frequencies were given. */
  const EqualFrequencies: string := "Equal Frequencies among Groups"

  /** `scipy.stats.chisquare(f_obs, f_exp, axis=None)`. */
  type ChiSquareFn = (seq<real>, Option<seq<real>>) -> StatOutcome

  /** One entry of the expected-frequency dict: a category and its frequency. */
  type Frequency = (C.Label, real)

  /** The expected frequencies a result shows: the sorted values, or the
      one-element tuple holding the placeholder. */
  datatype ExpectedShown = Given(f: seq<real>) | Placeholder(text: string)

  /** What a goodness-of-fit result carries beyond the common fields. */
  datatype GofData = GofData(dof: int, data: seq<Value>, observed: seq<real>, expected: ExpectedShown)

  predicate ByLevel(a: C.Count, b: C.Count) { C.LabelLe(a.0, b.0) }
  predicate ByKey(a: Frequency, b: Frequency) { C.LabelLe(a.0, b.0) }
  function CountLevel(c: C.Count): C.Label { c.0 }
  function Key(f: Frequency): C.Label { f.0 }
  function FreqValue(f: Frequency): real { f.1 }

  /** `sort_index()` on counts or on dict entries orders by the level alone. */
  lemma ByLevelOrder()
    ensures Preorder(ByLevel) && Preorder(ByKey)
    ensures forall a, b {:trigger ByLevel(a, b)} :: ByLevel(a, b) == C.LabelLe(CountLevel(a), CountLevel(b))
    ensures forall a, b {:trigger ByKey(a, b)} :: ByKey(a, b) == C.LabelLe(Key(a), Key(b))
  {
    C.LabelLeTotalOrder();
  }

  /** `data.value_counts(sort=True, ascending=False).to_frame().sort_index()`:
      one entry per distinct level of the series (missing values dropped)
      with its number of occurrences, in strictly ascending level order. */
  function ObservedTable(data: seq<Value>): (r: seq<C.Count>)
    ensures C.Distinct(C.LevelsOf(r))
    ensures forall l :: l in C.LevelsOf(r) <==> l in C.Levels(data)
    ensures forall i :: 0 <= i < |r| ==> r[i].1 == multiset(C.Levels(data))[r[i].0]
    ensures SortedBy(C.LevelsOf(r), C.LabelLe)
    ensures C.SumCounts(r) == |C.Levels(data)|
  {
    var xs := C.Levels(data);
    var vc := C.ValueCounts(xs, true);
    var r := SortBy(vc, ByLevel);
    C.ValueCountsSorted(xs);
    C.PermutedTable(r, vc, xs);
    ByLevelOrder();
    SortBySorted(vc, ByLevel);
    C.SumOfSort(vc, ByLevel);
    assert forall i, j :: 0 <= i < j < |r| ==> C.LabelLe(C.LevelsOf(r)[i], C.LevelsOf(r)[j]) by {
      forall i, j | 0 <= i < j < |r| ensures C.LabelLe(C.LevelsOf(r)[i], C.LevelsOf(r)[j]) {
        assert ByLevel(r[i], r[j]);
      }
    }
    r
  }

  /** `.values` of the count table. */
  function Counts(t: seq<C.Count>): (r: seq<real>)
    ensures |r| == |t| && forall i :: 0 <= i < |t| ==> r[i] == t[i].1 as real
  {
    seq(|t|, i requires 0 <= i < |t| => t[i].1 as real)
  }

  /** `pd.DataFrame.from_dict(expected, orient="index").sort_index().values`. */
  function ExpectedValues(expected: seq<Frequency>): (r: seq<real>)
    ensures |r| == |expected|
  {
    MapSeq(FreqValue, SortBy(expected, ByKey))
  }

  /** A sequence without repeats holds each of its elements once. */
  lemma {:induction false} DistinctMultiplicity(s: seq<C.Label>, x: C.Label)
    requires C.Distinct(s)
    ensures multiset(s)[x] == if x in s then 1 else 0
  {
    if s != [] {
      assert s == [s[0]] + s[1..];
      assert C.Distinct(s[1..]) by {
        forall i, j | 0 <= i < j < |s| - 1 ensures s[1..][i] != s[1..][j] {
          assert s[i + 1] != s[j + 1];
        }
      }
      assert s[0] !in s[1..] by {
        forall k | 0 <= k < |s| - 1 ensures s[1..][k] != s[0] {
          assert s[0] != s[k + 1];
        }
      }
      DistinctMultiplicity(s[1..], x);
      assert multiset(s) == multiset{s[0]} + multiset(s[1..]);
    }
  }

  /** A sequence without repeats has as many elements as its set. */
  lemma {:induction false} DistinctCardinality(s: seq<C.Label>)
    requires C.Distinct(s)
    ensures |set l | l in s| == |s|
  {
    if s != [] {
      assert C.Distinct(s[1..]) by {
        forall i, j | 0 <= i < j < |s| - 1 ensures s[1..][i] != s[1..][j] {
          assert s[i + 1] != s[j + 1];
        }
      }
      assert s[0] !in s[1..] by {
        forall k | 0 <= k < |s| - 1 ensures s[1..][k] != s[0] {
          assert s[0] != s[k + 1];
        }
      }
      DistinctCardinality(s[1..]);
      assert (set l | l in s) == {s[0]} + (set l | l in s[1..]);
    }
  }

  /** The degrees of freedom the test reports are the number of distinct
      categories in the data less one, and the observed counts add up to
      the number of values present. */
  lemma ObservedCategories(data: seq<Value>)
    ensures |ObservedTable(data)| - 1 == |set l | l in C.Levels(data)| - 1
    ensures C.SumCounts(ObservedTable(data)) == |C.Levels(data)|
  {
    var t := ObservedTable(data);
    DistinctCardinality(C.LevelsOf(t));
    assert (set l | l in C.LevelsOf(t)) == (set l | l in C.Levels(data));
  }

  /** When the dict's keys are exactly the categories of the data, the
      expected frequencies are listed in the same category order as the
      observed counts, so that position i of both speaks of one category. */
  lemma ExpectedAligned(data: seq<Value>, expected: seq<Frequency>)
    requires C.Distinct(MapSeq(Key, expected))
    requires forall l :: l in MapSeq(Key, expected) <==> l in C.Levels(data)
    ensures MapSeq(Key, SortBy(expected, ByKey)) == C.LevelsOf(ObservedTable(data))
  {
    var keys := MapSeq(Key, expected);
    var obs := C.LevelsOf(ObservedTable(data));
    ByLevelOrder();
    SortByKey(expected, ByKey, Key, C.LabelLe);
    C.LabelLeTotalOrder();
    SortBySorted(keys, C.LabelLe);
    SameLevels(keys, obs);
    SortedUnique(SortBy(keys, C.LabelLe), obs, C.LabelLe);
  }

  /** Two sequences without repeats holding the same levels are permutations
      of each other. */
  lemma SameLevels(a: seq<C.Label>, b: seq<C.Label>)
    requires C.Distinct(a) && C.Distinct(b)
    requires forall l :: l in a <==> l in b
    ensures multiset(a) == multiset(b)
  {
    forall x ensures multiset(a)[x] == multiset(b)[x] {
      DistinctMultiplicity(a, x);
      DistinctMultiplicity(b, x);
    }
  }

  /** The inference sentence at the level `str(alpha)`. */
  function Infer(pvalue: real, alpha: real, fmt: Format): string {
    ShownInference(pvalue, alpha, fmt,
      "The data have the expected frequencies.",
      "The data do not have the expected frequencies.")
  }

  /** "X²(dof, N=n)=statistic, p>alpha" or "... p<alpha". */
  function Report(dof: int, n: nat, statistic: real, pvalue: real, alpha: real, fmt: Format): string {
    "X\U{00B2}(" + IntToString(dof) + ", N=" + Decimal(n) + ")=" + fmt.round2(statistic) + ", p"
      + Sign(pvalue, alpha) + fmt.show(alpha)
  }

  /** The result a call records for the library's statistic and p-value:
      `len(observed) - 1` degrees of freedom, N the length of the data, and
      the placeholder in place of absent expected frequencies. */
  function CallResult(profile: Record, data: seq<Value>, expected: Option<seq<Frequency>>, alpha: real,
                      statistic: real, pvalue: real, fmt: Format): (res: TestResult<GofData>)
    ensures res.value == statistic && res.pvalue == pvalue && res.alpha == alpha
    ensures res.test == Field(profile, "name") && res.statistic == Field(profile, "statistic")
    ensures res.inference == Infer(pvalue, alpha, fmt)
    ensures res.detail.dof == |ObservedTable(data)| - 1 && res.detail.data == data
    ensures res.detail.observed == Counts(ObservedTable(data))
    ensures expected.None? <==> res.detail.expected == Placeholder(EqualFrequencies)
    ensures expected.Some? ==> res.detail.expected == Given(ExpectedValues(expected.value))
    ensures res.result == Report(|ObservedTable(data)| - 1, |data|, statistic, pvalue, alpha, fmt)
  {
    var dof := |ObservedTable(data)| - 1;
    var shown := if expected.None? then Placeholder(EqualFrequencies) else Given(ExpectedValues(expected.value));
    TestResult(Field(profile, "name"), Field(profile, "hypothesis"), Field(profile, "H0"),
               Field(profile, "statistic"), statistic, pvalue, Infer(pvalue, alpha, fmt), alpha,
               Report(dof, |data|, statistic, pvalue, alpha, fmt), None,
               GofData(dof, data, Counts(ObservedTable(data)), shown))
  }

  class ChiSquareGOFTest {
    const alpha: real
    const profile: Record
    var data: Option<seq<Value>>
    var result: Option<TestResult<GofData>>

    /** The constructor, given the profile `StatTestProfileTwo.create("x2gof")` made. */
    constructor (profile: Record, alpha: real := DefaultAlpha)
      ensures this.profile == profile && this.alpha == alpha
      ensures data.None? && result.None?
    {
      this.profile := profile;
      this.alpha := alpha;
      data := None;
      result := None;
    }

    /** `__call__(data, expected)`: store the data, then hand the observed
        counts (and the expected frequencies, when given) in ascending
        category order to the library; on success record `CallResult`, on
        an exception keep the previous result and propagate. */
    method Call(data: seq<Value>, expected: Option<seq<Frequency>>, chisquare: ChiSquareFn, fmt: Format)
      returns (o: Outcome)
      modifies this`data, this`result
      ensures this.data == Some(data)
      ensures var exp := if expected.Some? then Some(ExpectedValues(expected.value)) else None;
              var out := chisquare(Counts(ObservedTable(data)), exp);
              && (out.Raised? ==> o == Fail(out.error) && result == old(result))
              && (out.Returned? ==> o == Pass && result == Some(CallResult(profile, data, expected, alpha,
                                                                            out.statistic, out.pvalue, fmt)))
    {
      this.data := Some(data);
      var observed := Counts(ObservedTable(data));
      var exp: Option<seq<real>> := None;
      if expected.Some? {
        exp := Some(ExpectedValues(expected.value));
      }
      var out := chisquare(observed, exp);
      if out.Raised? {
        return Fail(out.error);
      }
      result := Some(CallResult(profile, data, expected, alpha, out.statistic, out.pvalue, fmt));
      o := Pass;
    }
  }

  /** Construction: create the two-variable profile, then the test. */
  method NewChiSquareGOFTest(profiles: map<string, Entry>, alpha: real := DefaultAlpha)
    returns (r: Result<ChiSquareGOFTest>)
    ensures r.Err? <==> TestId !in profiles
    ensures r.Ok? ==> fresh(r.value) && r.value.profile == Create(ProfileTwo, profiles, TestId).value
    ensures r.Ok? ==> r.value.alpha == alpha && r.value.data.None? && r.value.result.None?
  {
    var profile := Create(ProfileTwo, profiles, TestId);
    if profile.Err? {
      return Err(profile.error);
    }
    var t := new ChiSquareGOFTest(profile.value, alpha);
    return Ok(t);
  }
}
