/** Figure layout of the plotting canvas in d8analysis/visual/config.py:
    `Canvas.get_figaxes` places n plots on a grid of at most `maxcols`
    columns, the last plot spanning the rest of its row; and the plot
    configurations' `as_dict`, which keeps every attribute. */
module VisualConfig {
  import opened Wrappers
  import opened DataClass

  /** The canvas settings the layout reads. */
  datatype Canvas = Canvas(width: int, height: int, maxcols: int)

  const DefaultCanvas: Canvas := Canvas(12, 4, 2)

  /** A grid slot: one row, columns `colStart` up to (not including) `colEnd`. */
  datatype Slot = Slot(row: int, colStart: int, colEnd: int)

  /** The figure `get_figaxes` builds: a single axes, or axes on a grid. */
  datatype Layout = SingleAxes | Grid(nrows: int, ncols: int, slots: seq<Slot>)

  datatype Figure = Figure(figsize: (int, int), layout: Layout)

  /** `math.ceil(a / b)`. */
  function CeilDiv(a: int, b: int): (r: int)
    requires b != 0
    ensures (r - 1) as real < (a as real) / (b as real) <= r as real
  {
    var q := (a as real) / (b as real);
    -((-q).Floor)
  }

  function Min(a: int, b: int): int { if a <= b then a else b }

  /** The slot of plot idx among nplots on ncols columns: row idx div ncols,
      column idx mod ncols, and for the last plot the rest of the row. */
  function SlotOf(idx: nat, nplots: int, ncols: int): Slot
    requires ncols > 0
  {
    var row := idx / ncols;
    var col := idx % ncols;
    if idx < nplots - 1 then Slot(row, col, col + 1) else Slot(row, col, ncols)
  }

  /** `get_figaxes`: one axes for one plot; otherwise a grid of
      ceil(nplots / maxcols) rows and min(maxcols, nplots) columns holding
      the plots in index order. A zero `maxcols` divides by zero; a grid with
      no rows or no columns is refused with a ValueError. */
  method GetFigaxes(c: Canvas, nplots: int := 1, figsize: Option<(int, int)> := None) returns (r: Result<Figure>)
    ensures r.Ok? ==> r.value.figsize == (if figsize.Some? then figsize.value else (c.width, c.height))
    ensures nplots == 1 <==> r.Ok? && r.value.layout.SingleAxes?
    ensures nplots != 1 && c.maxcols == 0 ==> r == Err(ZeroDivisionError)
    ensures nplots != 1 && c.maxcols != 0 ==>
              (r.Err? <==> CeilDiv(nplots, c.maxcols) <= 0 || Min(c.maxcols, nplots) <= 0)
    ensures r.Ok? && nplots != 1 ==>
              var g := r.value.layout;
              && g.Grid? && g.nrows == CeilDiv(nplots, c.maxcols) && g.ncols == Min(c.maxcols, nplots)
              && |g.slots| == nplots
              && forall idx :: 0 <= idx < nplots ==> g.slots[idx] == SlotOf(idx, nplots, g.ncols)
  {
    var size := if figsize.Some? then figsize.value else (c.width, c.height);
    if nplots == 1 {
      return Ok(Figure(size, SingleAxes));
    }
    if c.maxcols == 0 {
      return Err(ZeroDivisionError);
    }
    var nrows := CeilDiv(nplots, c.maxcols);
    var ncols := Min(c.maxcols, nplots);
    if nrows <= 0 || ncols <= 0 {
      return Err(ValueError("Number of rows and columns must be positive integers"));
    }
    var axes: seq<Slot> := [];
    for idx := 0 to nplots
      invariant |axes| == idx
      invariant forall j :: 0 <= j < idx ==> axes[j] == SlotOf(j, nplots, ncols)
    {
      var row := idx / ncols;
      var col := idx % ncols;
      var ax;
      if idx < nplots - 1 {
        ax := Slot(row, col, col + 1);
      } else {
        ax := Slot(row, col, ncols);
      }
      axes := axes + [ax];
    }
    return Ok(Figure(size, Grid(nrows, ncols, axes)));
  }

  /** Every slot lies inside the grid, GridSpec's index never goes out of
      range, and only the last slot may be wider than one column. */
  lemma {:induction false} SlotsInGrid(nplots: int, maxcols: int, idx: nat)
    requires maxcols > 0 && nplots > 1 && idx < nplots
    ensures var ncols := Min(maxcols, nplots);
            var s := SlotOf(idx, nplots, ncols);
            && 0 <= s.row < CeilDiv(nplots, maxcols)
            && 0 <= s.colStart < s.colEnd <= ncols
            && (idx < nplots - 1 ==> s.colEnd == s.colStart + 1)
  {
    var ncols := Min(maxcols, nplots);
    var row := idx / ncols;
    if ncols == maxcols {
      assert row * maxcols <= idx < nplots;
      RowBelow(nplots, maxcols, row);
    } else {
      assert row == 0;
      assert CeilDiv(nplots, maxcols) >= 1;
    }
  }

  lemma RowBelow(nplots: int, maxcols: int, row: int)
    requires maxcols > 0 && row >= 0 && row * maxcols < nplots
    ensures row < CeilDiv(nplots, maxcols)
  {
    var q := (nplots as real) / (maxcols as real);
    assert (row as real) * (maxcols as real) < nplots as real;
    assert q * (maxcols as real) == nplots as real;
  }

  /** Distinct plots start in distinct cells. */
  lemma SlotsDistinct(nplots: int, ncols: int, i: nat, j: nat)
    requires ncols > 0 && i != j
    ensures (SlotOf(i, nplots, ncols).row, SlotOf(i, nplots, ncols).colStart)
            != (SlotOf(j, nplots, ncols).row, SlotOf(j, nplots, ncols).colStart)
  {
  }

  /** A plot configuration's `as_dict` has one entry per attribute, in order,
      with the attribute's name. */
  lemma {:induction false} PlotConfigAsDictKeepsAll(attrs: seq<Attr>)
    ensures Keys(ExportAttrs(PlotConfigFamily, attrs)) == Keys(attrs)
  {
    if attrs != [] {
      PlotConfigAsDictKeepsAll(attrs[1..]);
      var rest := ExportAttrs(PlotConfigFamily, attrs[1..]);
      var head := [Attr(attrs[0].key, Export(PlotConfigFamily, attrs[0].val))];
      var e := head + rest;
      assert ExportAttrs(PlotConfigFamily, attrs) == e;
      assert |Keys(rest)| == |attrs| - 1;
      forall i | 0 <= i < |attrs| ensures Keys(e)[i] == Keys(attrs)[i] {
        if i > 0 {
          assert e[i] == rest[i - 1];
          assert Keys(rest)[i - 1] == Keys(attrs[1..])[i - 1];
        }
      }
    }
  }
}
