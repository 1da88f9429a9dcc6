/** The checks and helpers every analysis in explorer/analysis/base.py
    inherits: dtype predicates on a named column, the column-name check, the
    dtype check over a mapping of names to dtype labels, and tick-label
    wrapping. */
module AnalysisBase {
  import opened Wrappers
  import opened Text
  import opened Frames
  import opened Plotting

  predicate CategoricalDType(t: DType) { t == Object || t == Category }
  predicate NumericDType(t: DType) { t == Int64 || t == Float64 }
  predicate DiscreteDType(t: DType) { t == Int64 }
  predicate ContinuousDType(t: DType) { t == Float64 }

  /** Discrete and continuous columns are numeric; no column is both
      categorical and numeric. */
  lemma DTypeImplications(t: DType)
    ensures DiscreteDType(t) ==> NumericDType(t)
    ensures ContinuousDType(t) ==> NumericDType(t)
    ensures !(CategoricalDType(t) && NumericDType(t))
  {
  }

  /** The dtype labels `_check_dtypes` knows. */
  datatype Kind = Categorical | Numeric | Discrete | Continuous

  function KindOf(dtype: string): (r: Result<Kind>)
    ensures r.Err? <==> dtype !in ["categorical", "numeric", "discrete", "continuous"]
    ensures r.Err? ==> r.error == KeyError(dtype)
  {
    if dtype == "categorical" then Ok(Categorical)
    else if dtype == "numeric" then Ok(Numeric)
    else if dtype == "discrete" then Ok(Discrete)
    else if dtype == "continuous" then Ok(Continuous)
    else Err(KeyError(dtype))
  }

  predicate Holds(k: Kind, t: DType) {
    match k
    case Categorical => CategoricalDType(t)
    case Numeric => NumericDType(t)
    case Discrete => DiscreteDType(t)
    case Continuous => ContinuousDType(t)
  }

  /** `_is_categorical`, `_is_numeric`, `_is_discrete`, `_is_continuous`:
      the column's dtype, or a KeyError for a missing column. */
  function IsKind(df: Frame, k: Kind, name: string): (r: Result<bool>)
    ensures r.Err? <==> !df.HasColumn(name)
    ensures r.Ok? ==> r.value == Holds(k, df.Get(name).value.dtype)
  {
    var col :- df.Get(name);
    Ok(Holds(k, col.dtype))
  }

  /** `_check_name`: a KeyError exactly when the name is not a column. */
  function CheckName(df: Frame, name: string): (r: Outcome)
    ensures r.Fail? <==> name !in df.Names()
    ensures r.Fail? ==> r.error == KeyError("Data has no attribute " + name + ".")
  {
    if name !in df.Names() then Fail(KeyError("Data has no attribute " + name + ".")) else Pass
  }

  /** One entry of `_check_dtypes`: an unknown dtype is a KeyError, a missing
      column a KeyError, a failing predicate a TypeError. */
  function CheckOne(df: Frame, entry: (string, string)): (r: Outcome)
    ensures r.Pass? <==> KindOf(entry.1).Ok? && df.HasColumn(entry.0) && Holds(KindOf(entry.1).value, df.Get(entry.0).value.dtype)
    ensures KindOf(entry.1).Err? ==> r == Fail(KeyError(entry.1))
    ensures KindOf(entry.1).Ok? && df.HasColumn(entry.0) && !Holds(KindOf(entry.1).value, df.Get(entry.0).value.dtype) ==>
              r == Fail(TypeError("Variable " + entry.0 + " must be a " + entry.1 + " data type."))
  {
    var (name, dtype) := entry;
    match KindOf(dtype)
    case Err(e) => Fail(e)
    case Ok(k) =>
      match IsKind(df, k, name)
      case Err(e) => Fail(e)
      case Ok(ok) => if ok then Pass else Fail(TypeError("Variable " + name + " must be a " + dtype + " data type."))
  }

  /** `_check_dtypes`: the entries in mapping order; the first failing one
      raises, and it returns normally exactly when every entry passes. */
  method CheckDtypes(df: Frame, dtypes: seq<(string, string)>) returns (r: Outcome)
    ensures r.Pass? <==> forall i :: 0 <= i < |dtypes| ==> CheckOne(df, dtypes[i]).Pass?
    ensures r.Fail? ==> exists j :: 0 <= j < |dtypes| && r == CheckOne(df, dtypes[j])
                                    && forall i :: 0 <= i < j ==> CheckOne(df, dtypes[i]).Pass?
  {
    for i := 0 to |dtypes|
      invariant forall k :: 0 <= k < i ==> CheckOne(df, dtypes[k]).Pass?
    {
      var (name, dtype) := dtypes[i];
      var kind := KindOf(dtype);
      if kind.Err? {
        return Fail(kind.error);
      }
      var ok := IsKind(df, kind.value, name);
      if ok.Err? {
        return Fail(ok.error);
      }
      if !ok.value {
        return Fail(TypeError("Variable " + name + " must be a " + dtype + " data type."));
      }
    }
    return Pass;
  }

  /** Every label with its spaces turned into line breaks. */
  function Wrapped(labels: seq<string>): (r: seq<string>)
    ensures |r| == |labels|
    ensures forall i :: 0 <= i < |labels| ==> r[i] == SpacesToNewlines(labels[i])
  {
    seq(|labels|, i requires 0 <= i < |labels| => SpacesToNewlines(labels[i]))
  }

  /** Wrapping again changes nothing, so an axes listed twice is wrapped once. */
  lemma WrappedIdempotent(labels: seq<string>)
    ensures Wrapped(Wrapped(labels)) == Wrapped(labels)
  {
    forall i | 0 <= i < |labels| ensures SpacesToNewlines(SpacesToNewlines(labels[i])) == SpacesToNewlines(labels[i]) {
      SpacesToNewlinesIdempotent(labels[i]);
    }
  }

  predicate IsAxis(axis: string, c: char) { Lower(axis) == [c] }

  /** `axis.lower() == "x"` holds for "x" and "X" only, likewise for "y". */
  lemma AxisMatch(axis: string)
    ensures IsAxis(axis, 'x') <==> axis == "x" || axis == "X"
    ensures IsAxis(axis, 'y') <==> axis == "y" || axis == "Y"
  {
    LowerIsLetter(axis, 'x');
    LowerIsLetter(axis, 'y');
  }

  /** `_wrap_ticklabels`: for axis "x" (any case) wrap every axes' x tick
      labels and set their size; likewise for "y"; any other axis changes
      nothing. The same list comes back. */
  method WrapTicklabels(axis: string, axes: seq<Axes>, fontsize: int := 8) returns (r: seq<Axes>)
    modifies (set a | a in axes)`xticklabels, (set a | a in axes)`xlabelsize
    modifies (set a | a in axes)`yticklabels, (set a | a in axes)`ylabelsize
    ensures r == axes
    ensures forall a :: a in axes ==>
              && a.xticklabels == (if IsAxis(axis, 'x') then Wrapped(old(a.xticklabels)) else old(a.xticklabels))
              && a.xlabelsize == (if IsAxis(axis, 'x') then fontsize else old(a.xlabelsize))
              && a.yticklabels == (if IsAxis(axis, 'y') then Wrapped(old(a.yticklabels)) else old(a.yticklabels))
              && a.ylabelsize == (if IsAxis(axis, 'y') then fontsize else old(a.ylabelsize))
  {
    if Lower(axis) == "x" {
      WrapX(axes, fontsize);
    }
    if Lower(axis) == "y" {
      WrapY(axes, fontsize);
    }
    return axes;
  }

  /** The x half of `_wrap_ticklabels`. */
  method WrapX(axes: seq<Axes>, fontsize: int)
    modifies (set a | a in axes)`xticklabels, (set a | a in axes)`xlabelsize
    ensures forall a :: a in axes ==> a.xticklabels == Wrapped(old(a.xticklabels)) && a.xlabelsize == fontsize
  {
    for i := 0 to |axes|
      invariant forall a :: a in axes[..i] ==> a.xticklabels == Wrapped(old(a.xticklabels)) && a.xlabelsize == fontsize
      invariant forall a :: a in axes && a !in axes[..i] ==> a.xticklabels == old(a.xticklabels)
    {
      var ax := axes[i];
      if ax in axes[..i] {
        WrappedIdempotent(old(ax.xticklabels));
      }
      ax.xticklabels := Wrapped(ax.xticklabels);
      ax.xlabelsize := fontsize;
      assert axes[..i + 1] == axes[..i] + [ax];
    }
    assert axes[..|axes|] == axes;
  }

  /** The y half of `_wrap_ticklabels`. */
  method WrapY(axes: seq<Axes>, fontsize: int)
    modifies (set a | a in axes)`yticklabels, (set a | a in axes)`ylabelsize
    ensures forall a :: a in axes ==> a.yticklabels == Wrapped(old(a.yticklabels)) && a.ylabelsize == fontsize
  {
    for i := 0 to |axes|
      invariant forall a :: a in axes[..i] ==> a.yticklabels == Wrapped(old(a.yticklabels)) && a.ylabelsize == fontsize
      invariant forall a :: a in axes && a !in axes[..i] ==> a.yticklabels == old(a.yticklabels)
    {
      var ax := axes[i];
      if ax in axes[..i] {
        WrappedIdempotent(old(ax.yticklabels));
      }
      ax.yticklabels := Wrapped(ax.yticklabels);
      ax.ylabelsize := fontsize;
      assert axes[..i + 1] == axes[..i] + [ax];
    }
    assert axes[..|axes|] == axes;
  }

  /** A wrapped label holds no space, keeps its length, and keeps every
      other character in place. */
  lemma WrappedLabels(labels: seq<string>, i: nat)
    requires i < |labels|
    ensures Space !in Wrapped(labels)[i] && |Wrapped(labels)[i]| == |labels[i]|
    ensures forall k :: 0 <= k < |labels[i]| && labels[i][k] != Space ==> Wrapped(labels)[i][k] == labels[i][k]
  {
    SpacesToNewlinesLeavesNoSpace(labels[i]);
  }
}
