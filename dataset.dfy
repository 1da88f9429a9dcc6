/** The tabular dataset of edation/data/base.py: a wrapper around one data
    frame that reports its length, selects columns by name, and summarises
    its shape and the quality of each column. Memory usage is a figure the
    data frame library reports; it is passed in. */
module Dataset {
  import opened Wrappers
  import opened DataClass
  import opened Frames

  /** `xs` occurs in `ys` in order, possibly with gaps. */
  predicate SubsequenceOf<T(==)>(xs: seq<T>, ys: seq<T>)
    decreases |ys|
  {
    if xs == [] then true
    else if ys == [] then false
    else if xs[0] == ys[0] then SubsequenceOf(xs[1..], ys[1..])
    else SubsequenceOf(xs, ys[1..])
  }

  /** The columns whose name is in `names` (keep) or not in it (not keep),
      in their original order. */
  function Keep(cols: seq<Column>, names: seq<string>, keep: bool): (r: seq<Column>)
    ensures forall c :: c in r <==> c in cols && ((c.name in names) == keep)
    ensures SubsequenceOf(r, cols)
  {
    if cols == [] then []
    else
      var rest := Keep(cols[1..], names, keep);
      assert forall c :: c in cols <==> c == cols[0] || c in cols[1..];
      if (cols[0].name in names) == keep then [cols[0]] + rest
      else
        assert rest == [] || rest[0] != cols[0] || SubsequenceOf(rest, cols[1..]);
        SubsequenceLater(rest, cols);
        rest
  }

  /** A subsequence of the tail is a subsequence of the whole. */
  lemma {:induction false} SubsequenceLater<T>(xs: seq<T>, ys: seq<T>)
    requires ys != [] && SubsequenceOf(xs, ys[1..])
    ensures SubsequenceOf(xs, ys)
    decreases |ys|
  {
    if xs != [] && xs[0] == ys[0] {
      // the head matches here, so the rest must follow in the tail
      if ys[1..] != [] && xs[0] == ys[1..][0] {
        SubsequenceLater(xs[1..], ys[1..]);
      } else {
        assert ys[1..] != [];
        SubsequenceLater(xs[1..], ys[1..]) by {
          SubsequenceDropHead(xs, ys[1..]);
        }
      }
    }
  }

  /** Dropping the first element keeps a subsequence. */
  lemma {:induction false} SubsequenceDropHead<T>(xs: seq<T>, ys: seq<T>)
    requires xs != [] && SubsequenceOf(xs, ys)
    ensures ys != [] && SubsequenceOf(xs[1..], ys[1..])
    decreases |ys|
  {
    if xs[0] != ys[0] {
      SubsequenceDropHead(xs, ys[1..]);
      SubsequenceLater(xs[1..], ys[1..]);
    }
  }

  class Dataset {
    const df: Frame

    constructor (df: Frame)
      ensures this.df == df
    {
      this.df := df;
    }

    /** `__len__`: the number of rows; every column of a well-formed frame
        holds that many cells. */
    function Len(): (n: nat)
      ensures df.Valid() ==> forall i :: 0 <= i < |df.cols| ==> |df.cols[i].cells| == n
    {
      df.nrows
    }

    /** The column names. */
    function Columns(): (r: seq<string>)
      ensures |r| == |df.cols| && forall i :: 0 <= i < |r| ==> r[i] == df.cols[i].name
    {
      df.Names()
    }

    /** `select(included, excluded)`: with `excluded` given, the columns not
        named in it, whatever `included` says; otherwise with `included`
        given, the columns named in it, names the frame lacks being ignored;
        with neither, every column. The chosen columns keep their order and
        their rows. */
    function Select(included: Option<seq<string>>, excluded: Option<seq<string>>): (r: Frame)
      ensures r.nrows == df.nrows && SubsequenceOf(r.cols, df.cols)
      ensures df.Valid() ==> r.Valid()
      ensures forall c :: c in r.cols <==>
                && c in df.cols
                && (excluded.Some? ==> c.name !in excluded.value)
                && (excluded.None? && included.Some? ==> c.name in included.value)
    {
      match (excluded, included)
      case (Some(ex), _) => Frame(Keep(df.cols, ex, false), df.nrows)
      case (None, Some(inc)) => Frame(Keep(df.cols, inc, true), df.nrows)
      case (None, None) => SubsequenceReflexive(df.cols); df
    }

    /** `overview(size)`: observations, variables, cells and the memory size
        reported for the frame. */
    function Overview(size: nat): (r: seq<(string, nat)>)
      ensures |r| == 4
      ensures r[0] == ("Number of Observations", Len()) && r[1] == ("Number of Variables", |df.cols|)
      ensures r[2].0 == "Number of Cells" && r[2].1 == r[0].1 * r[1].1
      ensures r[3] == ("Size (Bytes)", size)
    {
      var nvars := |df.cols|;
      var nrows := df.nrows;
      [("Number of Observations", nrows), ("Number of Variables", nvars),
       ("Number of Cells", nvars * nrows), ("Size (Bytes)", size)]
    }

    /** `info(sizes)`: one row per column, `sizes` giving the memory each
        column takes. */
    function Info(sizes: seq<nat>): (r: seq<InfoRow>)
      requires |sizes| == |df.cols|
      ensures |r| == |df.cols|
      ensures forall i :: 0 <= i < |r| ==> r[i] == ColumnInfo(df.cols[i], df.nrows, sizes[i])
    {
      seq(|df.cols|, i requires 0 <= i < |df.cols| => ColumnInfo(df.cols[i], df.nrows, sizes[i]))
    }
  }

  lemma {:induction false} SubsequenceReflexive<T>(xs: seq<T>)
    ensures SubsequenceOf(xs, xs)
  {
    if xs != [] { SubsequenceReflexive(xs[1..]); }
  }

  /** One row of `info`. The ratios are undefined (NaN) for a frame without rows. */
  datatype InfoRow = InfoRow(column: string, dataType: DType, valid: nat, nulls: nat, validity: Option<real>,
                             cardinality: nat, percentUnique: Option<real>, size: nat)

  /** The distinct values present in a column. */
  function Present(cells: seq<Value>): (r: set<Value>)
    ensures forall v :: v in r <==> v in cells && !v.NoneV?
  {
    if cells == [] then {}
    else
      assert forall v :: v in cells <==> v == cells[0] || v in cells[1..];
      (if cells[0].NoneV? then {} else {cells[0]}) + Present(cells[1..])
  }

  /** `nunique()`: how many distinct values a column holds, missing cells not counted. */
  function Cardinality(cells: seq<Value>): nat {
    |Present(cells)|
  }

  function Ratio(count: nat, rows: nat): Option<real> {
    if rows == 0 then None else Some(count as real / rows as real)
  }

  /** The figures of one column: present and missing cells, the share
      present, distinct values and their share, memory size. */
  function ColumnInfo(col: Column, nrows: nat, size: nat): InfoRow {
    var valid := CountPresent(col.cells);
    var card := Cardinality(col.cells);
    InfoRow(col.name, col.dtype, valid, CountMissing(col.cells), Ratio(valid, nrows), card, Ratio(card, nrows), size)
  }

  /** No column has more distinct values than present cells. */
  lemma {:induction false} CardinalityAtMostValid(cells: seq<Value>)
    ensures Cardinality(cells) <= CountPresent(cells)
  {
    if cells != [] {
      CardinalityAtMostValid(cells[1..]);
    }
  }

  /** In every row of `info` of a well-formed frame, Valid + Null is the row
      count, the distinct values are at most the valid ones, and both ratios
      lie between 0 and 1 (and are undefined exactly when there are no rows). */
  lemma InfoCounts(ds: Dataset, sizes: seq<nat>)
    requires ds.df.Valid() && |sizes| == |ds.df.cols|
    ensures forall i :: 0 <= i < |ds.df.cols| ==>
              var row := ds.Info(sizes)[i];
              && row.column == ds.df.cols[i].name && row.size == sizes[i]
              && row.valid + row.nulls == ds.Len()
              && row.cardinality <= row.valid
              && (row.validity.None? <==> ds.Len() == 0)
              && (row.validity.Some? ==> 0.0 <= row.validity.value <= 1.0)
              && (row.percentUnique.Some? ==> 0.0 <= row.percentUnique.value <= row.validity.value)
  {
    forall i | 0 <= i < |ds.df.cols| {
      ColumnCounts(ds.df.cols[i], ds.df.nrows, sizes[i]);
    }
  }

  /** The figures of one column whose length is the row count. */
  lemma ColumnCounts(col: Column, n: nat, size: nat)
    requires |col.cells| == n
    ensures var row := ColumnInfo(col, n, size);
            && row.valid + row.nulls == n
            && row.cardinality <= row.valid
            && (row.validity.Some? ==> 0.0 <= row.validity.value <= 1.0)
            && (row.percentUnique.Some? ==> 0.0 <= row.percentUnique.value <= row.validity.value)
  {
    PresentPlusMissing(col.cells);
    CardinalityAtMostValid(col.cells);
    RatioBounds(Cardinality(col.cells), CountPresent(col.cells), n);
  }

  /** Shares of the row count lie in [0, 1] and keep the order of their counts. */
  lemma RatioBounds(c: nat, v: nat, n: nat)
    requires c <= v <= n
    ensures Ratio(v, n).Some? ==> 0.0 <= Ratio(v, n).value <= 1.0
    ensures Ratio(c, n).Some? ==> 0.0 <= Ratio(c, n).value <= Ratio(v, n).value
  {
    if n > 0 {
      DivMonotone(c as real, v as real, n as real);
      DivMonotone(v as real, n as real, n as real);
    }
  }

  lemma DivMonotone(a: real, b: real, d: real)
    requires 0.0 <= a <= b && d > 0.0
    ensures 0.0 <= a / d <= b / d
  {
  }
}
