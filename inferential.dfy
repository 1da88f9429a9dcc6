/** The shared part of the statistical tests in
    d8analysis/quantitative/inferential/base.py: test profiles loaded from the
    statistics configuration, the result record, and the APA-style p-value and
    significance-level phrases. */
module InferentialBase {
  import opened Wrappers
  import opened Text
  import opened DataClass

  /** The profile classes: one variable or two. */
  datatype ProfileKind = ProfileOne | ProfileTwo

  /** The fields every profile declares, in declaration order. */
  const BaseFields: seq<string> :=
    ["id", "name", "description", "statistic", "analysis", "hypothesis", "H0",
     "parametric", "min_sample_size", "assumptions", "use_when"]

  /** `{f.name for f in fields(cls) if f.init}`, in declaration order. */
  function DeclaredFields(kind: ProfileKind): (r: seq<string>)
    ensures |r| > |BaseFields| && r[..|BaseFields|] == BaseFields
  {
    match kind
    case ProfileOne => BaseFields + ["X_variable_type"]
    case ProfileTwo => BaseFields + ["X_variable_type", "Y_variable_type"]
  }

  function ClassName(kind: ProfileKind): string {
    match kind
    case ProfileOne => "StatTestProfileOne"
    case ProfileTwo => "StatTestProfileTwo"
  }

  /** One entry of the statistics configuration file: a mapping of field names to values. */
  type Entry = map<string, Value>

  /** `cls(**kwargs)` of a dataclass: every declared field in order, taking its
      keyword argument or its default None. */
  function Construct(kind: ProfileKind, kwargs: Entry): (r: Record)
    ensures r.className == ClassName(kind) && r.family == DataClassFamily
    ensures Keys(r.attrs) == DeclaredFields(kind)
    ensures forall i :: 0 <= i < |r.attrs| ==>
              r.attrs[i].val == (if r.attrs[i].key in kwargs then kwargs[r.attrs[i].key] else NoneV)
  {
    var fs := DeclaredFields(kind);
    Record(ClassName(kind), DataClassFamily,
           seq(|fs|, i requires 0 <= i < |fs| => Attr(fs[i], if fs[i] in kwargs then kwargs[fs[i]] else NoneV)))
  }

  /** The value a record holds under a field name; None when it has no such field. */
  function Field(rec: Record, name: string): Value {
    FieldOf(rec.attrs, name)
  }

  function FieldOf(attrs: seq<Attr>, name: string): (r: Value)
    ensures name !in Keys(attrs) ==> r == NoneV
    ensures forall i :: 0 <= i < |attrs| && attrs[i].key == name && name !in Keys(attrs[..i]) ==>
              r == attrs[i].val
  {
    if attrs == [] then NoneV
    else if attrs[0].key == name then attrs[0].val
    else
      var r := FieldOf(attrs[1..], name);
      assert forall i :: 1 <= i < |attrs| ==> Keys(attrs[..i]) == [attrs[0].key] + Keys(attrs[1..][..i - 1]);
      r
  }

  /** The class method `create(id)`: look the id up in the configuration (a
      KeyError when it is not there), keep the entries that name a declared
      field, stamp the id, and construct. */
  function Create(kind: ProfileKind, profiles: map<string, Entry>, id: string): (r: Result<Record>)
    ensures r.Err? <==> id !in profiles
    ensures r.Err? ==> r.error == KeyError(id)
    ensures r.Ok? ==> r.value.className == ClassName(kind) && r.value.family == DataClassFamily
    ensures r.Ok? ==> Keys(r.value.attrs) == DeclaredFields(kind)
    ensures r.Ok? ==> Field(r.value, "id") == Str(id)
    ensures r.Ok? ==> forall f :: f in DeclaredFields(kind) && f != "id" ==>
              Field(r.value, f) == (if f in profiles[id] then profiles[id][f] else NoneV)
  {
    if id !in profiles then Err(KeyError(id))
    else
      var entry := profiles[id];
      var filtered := map k | k in entry && k in DeclaredFields(kind) :: entry[k];
      var rec := Construct(kind, filtered["id" := Str(id)]);
      FieldsOfConstruct(kind, filtered["id" := Str(id)]);
      Ok(rec)
  }

  lemma FieldsOfConstruct(kind: ProfileKind, kwargs: Entry)
    ensures forall f :: f in DeclaredFields(kind) ==>
              Field(Construct(kind, kwargs), f) == (if f in kwargs then kwargs[f] else NoneV)
  {
    var rec := Construct(kind, kwargs);
    var fs := DeclaredFields(kind);
    forall f | f in fs
      ensures Field(rec, f) == (if f in kwargs then kwargs[f] else NoneV)
    {
      var i := FirstIndex(fs, f);
      assert Keys(rec.attrs)[..i] == fs[..i];
      assert f !in Keys(rec.attrs[..i]) by {
        assert Keys(rec.attrs[..i]) == Keys(rec.attrs)[..i];
      }
    }
  }

  function FirstIndex(s: seq<string>, x: string): (i: nat)
    requires x in s
    ensures i < |s| && s[i] == x && x !in s[..i]
  {
    if s[0] == x then 0
    else
      var j := FirstIndex(s[1..], x);
      assert s[..j + 1] == [s[0]] + s[1..][..j];
      j + 1
  }

  /** A one-variable profile has no Y variable type; a two-variable one has
      both types. An entry's Y type is dropped by `ProfileOne` and kept by
      `ProfileTwo`. */
  lemma CreateKeepsDeclaredOnly(profiles: map<string, Entry>, id: string)
    requires id in profiles && "Y_variable_type" in profiles[id]
    ensures "Y_variable_type" !in Keys(Create(ProfileOne, profiles, id).value.attrs)
    ensures Field(Create(ProfileTwo, profiles, id).value, "Y_variable_type") == profiles[id]["Y_variable_type"]
  {
    var one := DeclaredFields(ProfileOne);
    assert forall i :: 0 <= i < |one| ==> one[i][0] != 'Y';
    assert DeclaredFields(ProfileTwo)[12] == "Y_variable_type";
  }

  /** A profile names no private field, so `as_dict` shows every field. */
  lemma ProfileAsDictShowsAll(kind: ProfileKind, profiles: map<string, Entry>, id: string)
    requires id in profiles
    ensures forall k :: k in Keys(AsDict(Create(kind, profiles, id).value)) <==> k in DeclaredFields(kind)
  {
    var fs := DeclaredFields(kind);
    assert forall i :: 0 <= i < |fs| ==> !IsPrivate(fs[i]);
  }

  /** The default significance level of a result and of every test. */
  const DefaultAlpha: real := 0.05

  /** `_report_pvalue`: "p<.001" below one in a thousand, otherwise "P=" and
      the p-value rounded to three places (`round3` stands for that rendering). */
  function ReportPValue(pvalue: real, round3: string): (r: string)
    ensures pvalue < 0.001 <==> r == "p<.001"
    ensures pvalue >= 0.001 ==> r == "P=" + round3
  {
    if pvalue < 0.001 then "p<.001"
    else
      assert ("P=" + round3)[0] == 'P';
      "P=" + round3
  }

  /** `_report_alpha`: the significance level as a whole number of percent. */
  function ReportAlpha(alpha: real): (r: string)
    ensures alpha >= 0.0 ==> exists pct: nat {:trigger Decimal(pct)} ::
              r == "significant at " + Decimal(pct) + "%." && pct as real <= alpha * 100.0 < pct as real + 1.0
  {
    var a := Trunc(alpha * 100.0);
    "significant at " + IntToString(a) + "%."
  }

  /** The significance level as the inference sentences write it: a whole
      number of percent. */
  function PercentLevel(alpha: real): string {
    IntToString(Trunc(alpha * 100.0)) + "%"
  }

  lemma ReportDefaultAlpha()
    ensures ReportAlpha(DefaultAlpha) == "significant at 5%."
  {
    assert Trunc(DefaultAlpha * 100.0) == 5;
  }

  /** How the tests render numbers: `round(x, 2)`, `round(x, 3)`, `round(x, 4)`
      and `str(x)`, each followed by `str`. */
  datatype Format = Format(round2: real -> string, round3: real -> string,
                           round4: real -> string, show: real -> string)

  /** Whether the null hypothesis survives: the p-value exceeds alpha. */
  predicate NotRejected(pvalue: real, alpha: real) {
    pvalue > alpha
  }

  /** The two inference sentences the goodness-of-fit, centrality and
      independence tests share. `p2` renders the rounded p-value, `level` the
      significance level; `keep` and `reject` are the sentences that follow. */
  function Verdict(pvalue: real, alpha: real, p2: string, level: string, keep: string, reject: string): (r: string)
    ensures NotRejected(pvalue, alpha) ==> r == VerdictText(p2, "greater", level, "not rejected", keep)
    ensures !NotRejected(pvalue, alpha) ==> r == VerdictText(p2, "less", level, "rejected", reject)
  {
    if pvalue > alpha then VerdictText(p2, "greater", level, "not rejected", keep)
    else VerdictText(p2, "less", level, "rejected", reject)
  }

  /** The comparison the explorer tests print between p and alpha. */
  function Sign(pvalue: real, alpha: real): (r: string)
    ensures r == ">" <==> NotRejected(pvalue, alpha)
    ensures r == "<" <==> !NotRejected(pvalue, alpha)
  {
    if pvalue > alpha then ">" else "<"
  }

  /** The inference of the tests that state the level as `int(alpha*100)%`
      and round the p-value to two places. */
  function PercentInference(pvalue: real, alpha: real, fmt: Format, keep: string, reject: string): (r: string)
    ensures NotRejected(pvalue, alpha) ==>
              r == VerdictText(fmt.round2(pvalue), "greater", PercentLevel(alpha), "not rejected", keep)
    ensures !NotRejected(pvalue, alpha) ==>
              r == VerdictText(fmt.round2(pvalue), "less", PercentLevel(alpha), "rejected", reject)
  {
    Verdict(pvalue, alpha, fmt.round2(pvalue), PercentLevel(alpha), keep, reject)
  }

  /** The inference of the tests that state the level as `str(alpha)` and
      round the p-value to two places. */
  function ShownInference(pvalue: real, alpha: real, fmt: Format, keep: string, reject: string): (r: string)
    ensures NotRejected(pvalue, alpha) ==>
              r == VerdictText(fmt.round2(pvalue), "greater", fmt.show(alpha), "not rejected", keep)
    ensures !NotRejected(pvalue, alpha) ==>
              r == VerdictText(fmt.round2(pvalue), "less", fmt.show(alpha), "rejected", reject)
  {
    Verdict(pvalue, alpha, fmt.round2(pvalue), fmt.show(alpha), keep, reject)
  }

  function VerdictText(p2: string, cmp: string, level: string, outcome: string, tail: string): string {
    "The pvalue " + p2 + " is " + cmp + " than level of significance " + level
      + "; therefore, the null hypothesis is " + outcome + ". " + tail
  }

  /** The two sentences never coincide: whatever the renderings (as long as a
      rendered p-value has no space in it), a sentence that keeps the null
      hypothesis differs from one that rejects it. */
  lemma {:induction false} VerdictsDiffer(p2a: string, p2b: string, level: string, levelb: string,
                                          keep: string, reject: string)
    requires Space !in p2a && Space !in p2b
    ensures VerdictText(p2a, "greater", level, "not rejected", keep) != VerdictText(p2b, "less", levelb, "rejected", reject)
  {
    var a := VerdictText(p2a, "greater", level, "not rejected", keep);
    var b := VerdictText(p2b, "less", levelb, "rejected", reject);
    var n := |"The pvalue "|;
    if |p2a| < |p2b| {
      assert a[n + |p2a|] == Space;
      assert b[n + |p2a|] == p2b[|p2a|];
    } else if |p2b| < |p2a| {
      assert b[n + |p2b|] == Space;
      assert a[n + |p2b|] == p2a[|p2b|];
    } else {
      assert a[n + |p2a| + 4] == 'g';
      assert b[n + |p2a| + 4] == 'l';
    }
  }

  /** A test's result record; `D` is the part particular to one test. */
  datatype TestResult<D> = TestResult(
    test: Value,
    hypothesis: Value,
    H0: Value,
    statistic: Value,
    value: real,
    pvalue: real,
    inference: string,
    alpha: real,
    result: string,
    interpretation: Option<string>,
    detail: D)
}
