/** A pandas DataFrame as far as the core looks into one: named columns in
    order, each with a dtype and its cells. A missing cell (None or NaN) is
    `NoneV`. */
module Frames {
  import opened Wrappers
  import opened DataClass

  /** The dtypes the analysis predicates tell apart; on a 64-bit platform
      `int` and `float` compare equal to int64 and float64. */
  datatype DType = Object | Category | Int64 | Float64 | OtherDType(name: string)

  datatype Column = Column(name: string, dtype: DType, cells: seq<Value>)

  datatype Frame = Frame(cols: seq<Column>, nrows: nat) {
    /** Every column holds one cell per row. */
    predicate Valid() {
      forall i :: 0 <= i < |cols| ==> |cols[i].cells| == nrows
    }

    function Names(): (r: seq<string>)
      ensures |r| == |cols|
      ensures forall i :: 0 <= i < |cols| ==> r[i] == cols[i].name
    {
      seq(|cols|, i requires 0 <= i < |cols| => cols[i].name)
    }

    predicate HasColumn(name: string) {
      name in Names()
    }

    /** `df[name]`: the first column of that name, or KeyError. */
    function Get(name: string): (r: Result<Column>)
      ensures r.Ok? <==> HasColumn(name)
      ensures r.Ok? ==> r.value in cols && r.value.name == name
      ensures r.Err? ==> r.error == KeyError(name)
    {
      GetFrom(cols, name)
    }
  }

  function GetFrom(cols: seq<Column>, name: string): (r: Result<Column>)
    ensures r.Ok? <==> exists i :: 0 <= i < |cols| && cols[i].name == name
    ensures r.Ok? ==> r.value in cols && r.value.name == name
    ensures r.Err? ==> r.error == KeyError(name)
  {
    if cols == [] then Err(KeyError(name))
    else if cols[0].name == name then Ok(cols[0])
    else
      var r := GetFrom(cols[1..], name);
      assert forall i :: 1 <= i < |cols| ==> cols[i] == cols[1..][i - 1];
      r
  }

  /** `df.count()` for one column: the cells that are present. */
  function CountPresent(cells: seq<Value>): (r: nat)
    ensures r <= |cells|
  {
    if cells == [] then 0 else (if cells[0].NoneV? then 0 else 1) + CountPresent(cells[1..])
  }

  /** `df.isna().sum()` for one column: the cells that are missing. */
  function CountMissing(cells: seq<Value>): (r: nat)
    ensures r <= |cells|
  {
    if cells == [] then 0 else (if cells[0].NoneV? then 1 else 0) + CountMissing(cells[1..])
  }

  /** Every cell is either present or missing. */
  lemma {:induction false} PresentPlusMissing(cells: seq<Value>)
    ensures CountPresent(cells) + CountMissing(cells) == |cells|
  {
    if cells != [] { PresentPlusMissing(cells[1..]); }
  }
}
