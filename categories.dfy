/** Frequencies of the levels of a qualitative variable, shared by
    `QualitativeOne` (explorer/analysis/univariate.py) and `CategoricalOne`
    (explorer/univariate.py), whose `frequency`, `test_distribution` and
    `_valsort` are the same code: `value_counts`, the Count / % / Cum % table,
    and the validation and alignment of observed and expected frequencies. */
module Categories {
  import opened Wrappers
  import opened DataClass
  import opened Frames
  import opened Sorting
  import AnalysisBase

  /** A category level as pandas compares it: numbers (booleans as 0 and 1)
      or strings. */
  datatype Label = LNum(r: real) | LStr(s: string)

  /** The level of a cell; missing cells are dropped by `value_counts`. */
  function ToLabel(v: Value): Option<Label> {
    match v
    case Int(i) => Some(LNum(i as real))
    case Float(x) => Some(LNum(x))
    case NumpyScalar(x) => Some(LNum(x))
    case Bool(b) => Some(LNum(if b then 1.0 else 0.0))
    case Str(s) => Some(LStr(s))
    case _ => None
  }

  /** The number of rows whose cell has level l. */
  function RowsWithLevel(cells: seq<Value>, l: Label): nat {
    if cells == [] then 0
    else (if ToLabel(cells[0]) == Some(l) then 1 else 0) + RowsWithLevel(cells[1..], l)
  }

  /** The levels of a column's cells, in row order: each level occurs once
      per row holding it, and missing cells are dropped. */
  function Levels(cells: seq<Value>): (r: seq<Label>)
    ensures |r| <= |cells|
    ensures forall l :: l in r <==> exists i :: 0 <= i < |cells| && ToLabel(cells[i]) == Some(l)
    ensures forall l :: multiset(r)[l] == RowsWithLevel(cells, l)
  {
    if cells == [] then []
    else
      var rest := Levels(cells[1..]);
      assert forall i :: 1 <= i < |cells| ==> cells[i] == cells[1..][i - 1];
      match ToLabel(cells[0])
      case Some(l) =>
        assert forall x :: multiset([l] + rest)[x] == (if x == l then 1 else 0) + multiset(rest)[x];
        [l] + rest
      case None => rest
  }

  /** The levels of consecutive rows are consecutive: the order of the rows
      is kept. */
  lemma {:induction false} LevelsAppend(a: seq<Value>, b: seq<Value>)
    ensures Levels(a + b) == Levels(a) + Levels(b)
  {
    if a == [] {
      assert a + b == b;
    } else {
      assert (a + b)[0] == a[0];
      assert (a + b)[1..] == a[1..] + b;
      LevelsAppend(a[1..], b);
    }
  }

  /** One more row adds its level, if any, at the end. */
  lemma LevelsSnoc(cells: seq<Value>, v: Value)
    ensures Levels(cells + [v]) == Levels(cells) + (if ToLabel(v).Some? then [ToLabel(v).value] else [])
  {
    LevelsAppend(cells, [v]);
    assert [v][1..] == [];
  }

  // ---------------------------------------------------------------------------
  // The order `sort_index` / `sort_values` use

  /** Lexicographic order by code point, as Python compares strings. */
  predicate StrLe(a: string, b: string)
    decreases |a|
  {
    |a| == 0 || (|b| > 0 && (a[0] < b[0] || (a[0] == b[0] && StrLe(a[1..], b[1..]))))
  }

  lemma {:induction false} StrLeTotal(a: string, b: string)
    ensures StrLe(a, b) || StrLe(b, a)
    decreases |a|
  {
    if |a| > 0 && |b| > 0 && a[0] == b[0] { StrLeTotal(a[1..], b[1..]); }
  }

  lemma {:induction false} StrLeTrans(a: string, b: string, c: string)
    requires StrLe(a, b) && StrLe(b, c)
    ensures StrLe(a, c)
    decreases |a|
  {
    if |a| > 0 && a[0] == b[0] && b[0] == c[0] { StrLeTrans(a[1..], b[1..], c[1..]); }
  }

  lemma {:induction false} StrLeAntisym(a: string, b: string)
    requires StrLe(a, b) && StrLe(b, a)
    ensures a == b
    decreases |a|
  {
    if |a| > 0 {
      StrLeAntisym(a[1..], b[1..]);
      assert a == [a[0]] + a[1..] && b == [b[0]] + b[1..];
    }
  }

  /** Numbers before strings; each kind in its natural order. */
  predicate LabelLe(a: Label, b: Label) {
    match (a, b)
    case (LNum(x), LNum(y)) => x <= y
    case (LNum(_), LStr(_)) => true
    case (LStr(_), LNum(_)) => false
    case (LStr(s), LStr(t)) => StrLe(s, t)
  }

  /** The level order is a total order. */
  lemma LabelLeTotalOrder()
    ensures Preorder(LabelLe) && Antisymmetric(LabelLe)
  {
    forall a: Label, b: Label ensures LabelLe(a, b) || LabelLe(b, a) {
      if a.LStr? && b.LStr? { StrLeTotal(a.s, b.s); }
    }
    forall a: Label, b: Label, c: Label | LabelLe(a, b) && LabelLe(b, c) ensures LabelLe(a, c) {
      if a.LStr? && b.LStr? && c.LStr? { StrLeTrans(a.s, b.s, c.s); }
    }
    forall a: Label, b: Label | LabelLe(a, b) && LabelLe(b, a) ensures a == b {
      if a.LStr? && b.LStr? { StrLeAntisym(a.s, b.s); }
    }
  }

  // ---------------------------------------------------------------------------
  // `value_counts`

  type Count = (Label, nat)

  function LevelsOf(t: seq<Count>): (r: seq<Label>)
    ensures |r| == |t| && forall i :: 0 <= i < |t| ==> r[i] == t[i].0
  {
    seq(|t|, i requires 0 <= i < |t| => t[i].0)
  }

  predicate Distinct(ls: seq<Label>) {
    forall i, j :: 0 <= i < j < |ls| ==> ls[i] != ls[j]
  }

  /** The sum of the counts. */
  function SumCounts(t: seq<Count>): nat {
    if t == [] then 0 else t[0].1 + SumCounts(t[1..])
  }

  /** One more occurrence of x: its entry is incremented, or a new entry
      (x, 1) is appended. */
  function Bump(t: seq<Count>, x: Label): (r: seq<Count>)
    ensures SumCounts(r) == SumCounts(t) + 1
    ensures |r| == |t| + (if x in LevelsOf(t) then 0 else 1)
  {
    if t == [] then [(x, 1)]
    else if t[0].0 == x then [(x, t[0].1 + 1)] + t[1..]
    else
      assert LevelsOf(t) == [t[0].0] + LevelsOf(t[1..]);
      [t[0]] + Bump(t[1..], x)
  }

  /** Bumping keeps the levels, adding x at the end when it is new. */
  lemma {:induction false} BumpLevels(t: seq<Count>, x: Label)
    ensures LevelsOf(Bump(t, x)) == if x in LevelsOf(t) then LevelsOf(t) else LevelsOf(t) + [x]
  {
    if t != [] {
      var r := Bump(t, x);
      LevelsCons(t);
      LevelsCons(r);
      if t[0].0 == x {
        assert r[1..] == t[1..];
      } else {
        BumpLevels(t[1..], x);
        assert r[1..] == Bump(t[1..], x);
        assert x in LevelsOf(t) <==> x in LevelsOf(t[1..]);
        if x !in LevelsOf(t) {
          assert [t[0].0] + (LevelsOf(t[1..]) + [x]) == ([t[0].0] + LevelsOf(t[1..])) + [x];
        }
      }
    }
  }

  lemma LevelsCons(t: seq<Count>)
    requires t != []
    ensures LevelsOf(t) == [t[0].0] + LevelsOf(t[1..])
  {
  }

  /** Bumping a table with distinct levels adds one to the count of x alone. */
  lemma {:induction false} BumpCounts(t: seq<Count>, x: Label)
    requires Distinct(LevelsOf(t))
    ensures forall i :: 0 <= i < |t| ==> Bump(t, x)[i].1 == t[i].1 + (if t[i].0 == x then 1 else 0)
  {
    if t == [] {
    } else if t[0].0 == x {
      var r := Bump(t, x);
      forall i | 0 < i < |t| ensures r[i].1 == t[i].1 && t[i].0 != x {
        assert LevelsOf(t)[0] != LevelsOf(t)[i];
        assert r[i] == t[i];
      }
    } else {
      var r := Bump(t, x);
      var rest := Bump(t[1..], x);
      assert r == [t[0]] + rest;
      DistinctTail(t);
      BumpCounts(t[1..], x);
      forall i | 0 < i < |t| ensures r[i].1 == t[i].1 + (if t[i].0 == x then 1 else 0) {
        assert r[i] == rest[i - 1] && t[i] == t[1..][i - 1];
      }
    }
  }

  /** Bumping with a new level appends it with count one. */
  lemma {:induction false} BumpNew(t: seq<Count>, x: Label)
    requires x !in LevelsOf(t)
    ensures Bump(t, x)[|t|] == (x, 1)
  {
    if t != [] {
      LevelsCons(t);
      assert t[0].0 != x;
      var rest := Bump(t[1..], x);
      assert Bump(t, x) == [t[0]] + rest;
      BumpNew(t[1..], x);
    }
  }

  lemma DistinctTail(t: seq<Count>)
    requires t != [] && Distinct(LevelsOf(t))
    ensures Distinct(LevelsOf(t[1..]))
  {
    forall i, j | 0 <= i < j < |t| - 1 ensures LevelsOf(t[1..])[i] != LevelsOf(t[1..])[j] {
      assert LevelsOf(t)[i + 1] != LevelsOf(t)[j + 1];
    }
  }

  /** `value_counts(sort=False)`: one entry per level in order of first
      appearance, with its number of occurrences. */
  function Tally(xs: seq<Label>): (r: seq<Count>)
    ensures Distinct(LevelsOf(r))
    ensures forall l :: l in LevelsOf(r) <==> l in xs
    ensures forall i :: 0 <= i < |r| ==> r[i].1 == multiset(xs)[r[i].0]
    ensures SumCounts(r) == |xs|
  {
    if xs == [] then []
    else
      var init := xs[..|xs| - 1];
      var x := xs[|xs| - 1];
      assert xs == init + [x];
      assert multiset(xs) == multiset(init) + multiset{x};
      var t := Tally(init);
      var r := Bump(t, x);
      BumpLevels(t, x);
      BumpCounts(t, x);
      assert x !in LevelsOf(t) ==> r[|t|] == (x, 1) by {
        if x !in LevelsOf(t) {
          BumpNew(t, x);
        }
      }
      TallyStep(init, x, t, r);
      r
  }

  lemma TallyStep(init: seq<Label>, x: Label, t: seq<Count>, r: seq<Count>)
    requires Distinct(LevelsOf(t))
    requires forall l :: l in LevelsOf(t) <==> l in init
    requires forall i :: 0 <= i < |t| ==> t[i].1 == multiset(init)[t[i].0]
    requires LevelsOf(r) == if x in LevelsOf(t) then LevelsOf(t) else LevelsOf(t) + [x]
    requires forall i :: 0 <= i < |t| ==> r[i].1 == t[i].1 + (if t[i].0 == x then 1 else 0)
    requires x !in LevelsOf(t) ==> r[|t|] == (x, 1)
    ensures Distinct(LevelsOf(r))
    ensures forall l :: l in LevelsOf(r) <==> l in init + [x]
    ensures forall i :: 0 <= i < |r| ==> r[i].1 == multiset(init + [x])[r[i].0]
  {
    var lt, lr := LevelsOf(t), LevelsOf(r);
    BumpDistinct(lt, lr, x);
    forall l ensures l in lr <==> l in init + [x] {
      assert l in init + [x] <==> l in init || l == x;
    }
    forall i | 0 <= i < |t| ensures r[i].0 == t[i].0 {
      assert lr[i] == lt[i];
    }
    TallyCounts(init, x, t, r);
  }

  lemma BumpDistinct(lt: seq<Label>, lr: seq<Label>, x: Label)
    requires Distinct(lt)
    requires lr == if x in lt then lt else lt + [x]
    ensures Distinct(lr)
  {
    if x !in lt {
      forall i, j | 0 <= i < j < |lr| ensures lr[i] != lr[j] {
        if j == |lt| { assert lr[i] == lt[i]; assert lt[i] in lt; }
      }
    }
  }

  lemma TallyCounts(init: seq<Label>, x: Label, t: seq<Count>, r: seq<Count>)
    requires forall i :: 0 <= i < |t| ==> t[i].1 == multiset(init)[t[i].0]
    requires |t| <= |r| <= |t| + 1
    requires forall i :: 0 <= i < |t| ==> r[i].0 == t[i].0 && r[i].1 == t[i].1 + (if t[i].0 == x then 1 else 0)
    requires |r| > |t| ==> x !in init && r[|t|] == (x, 1)
    ensures forall i :: 0 <= i < |r| ==> r[i].1 == multiset(init + [x])[r[i].0]
  {
    forall i | 0 <= i < |r| ensures r[i].1 == multiset(init + [x])[r[i].0] {
      MultisetSnoc(init, x, r[i].0);
    }
  }

  lemma MultisetSnoc(xs: seq<Label>, x: Label, l: Label)
    ensures multiset(xs + [x])[l] == multiset(xs)[l] + (if l == x then 1 else 0)
  {
    assert multiset(xs + [x]) == multiset(xs) + multiset{x};
  }

  /** A level seen for the first time is listed after all earlier levels. */
  lemma TallyAppendsNewLevel(xs: seq<Label>, x: Label)
    ensures x !in xs ==> LevelsOf(Tally(xs + [x])) == LevelsOf(Tally(xs)) + [x]
    ensures x in xs ==> LevelsOf(Tally(xs + [x])) == LevelsOf(Tally(xs))
  {
    assert (xs + [x])[..|xs|] == xs;
    BumpLevels(Tally(xs), x);
  }

  /** Count order: higher counts first. */
  predicate ByCountDesc(a: Count, b: Count) { a.1 >= b.1 }

  /** `value_counts()`: counts in non-increasing order, ties in first
      appearance order. */
  function ValueCounts(xs: seq<Label>, sort: bool): seq<Count> {
    if sort then SortBy(Tally(xs), ByCountDesc) else Tally(xs)
  }

  lemma {:induction false} SumOfInsert(x: Count, ys: seq<Count>, le: (Count, Count) -> bool)
    ensures SumCounts(Insert(x, ys, le)) == x.1 + SumCounts(ys)
  {
    if ys != [] && !le(x, ys[0]) {
      SumOfInsert(x, ys[1..], le);
      assert Insert(x, ys, le)[1..] == Insert(x, ys[1..], le);
    }
  }

  /** Reordering the counts keeps their sum. */
  lemma {:induction false} SumOfSort(t: seq<Count>, le: (Count, Count) -> bool)
    ensures SumCounts(SortBy(t, le)) == SumCounts(t)
  {
    if t != [] {
      SumOfSort(t[1..], le);
      SumOfInsert(t[0], SortBy(t[1..], le), le);
    }
  }

  /** Reordering entries with distinct levels keeps the levels distinct. */
  lemma DistinctOfPermutation(a: seq<Count>, b: seq<Count>)
    requires multiset(a) == multiset(b) && Distinct(LevelsOf(b))
    ensures Distinct(LevelsOf(a))
  {
    forall i, j | 0 <= i < j < |a| ensures a[i].0 != a[j].0 {
      assert a[i] in multiset(b) && a[j] in multiset(b);
      var p :| 0 <= p < |b| && b[p] == a[i];
      var q :| 0 <= q < |b| && b[q] == a[j];
      if a[i].0 == a[j].0 {
        assert p == q;
        assert a[i] == a[j];
        assert multiset(a)[a[i]] >= 2 by {
          assert a[i] in multiset(a[..j]) by { assert a[..j][i] == a[i]; }
          assert a == a[..j] + a[j..];
          assert multiset(a) == multiset(a[..j]) + multiset(a[j..]);
          assert a[j..][0] == a[j];
        }
        SingleOccurrence(b, p);
      }
    }
  }

  /** An entry of a table with distinct levels occurs once. */
  lemma SingleOccurrence(b: seq<Count>, p: nat)
    requires p < |b| && Distinct(LevelsOf(b))
    ensures multiset(b)[b[p]] == 1
  {
    var before, after := b[..p], b[p + 1..];
    assert b == before + [b[p]] + after;
    assert b[p] !in before by {
      forall k | 0 <= k < p ensures before[k] != b[p] { assert LevelsOf(b)[k] != LevelsOf(b)[p]; }
    }
    assert b[p] !in after by {
      forall k | 0 <= k < |after| ensures after[k] != b[p] { assert LevelsOf(b)[p] != LevelsOf(b)[p + 1 + k]; }
    }
    assert multiset(b) == multiset(before) + multiset{b[p]} + multiset(after);
  }

  /** What `value_counts()` promises: one entry per distinct level, each with
      its number of occurrences, in non-increasing order of count, summing to
      the number of values. */
  lemma ValueCountsSorted(xs: seq<Label>)
    ensures Distinct(LevelsOf(ValueCounts(xs, true)))
    ensures forall l :: l in LevelsOf(ValueCounts(xs, true)) <==> l in xs
    ensures forall i :: 0 <= i < |ValueCounts(xs, true)| ==>
      ValueCounts(xs, true)[i].1 == multiset(xs)[ValueCounts(xs, true)[i].0]
    ensures SortedBy(ValueCounts(xs, true), ByCountDesc)
    ensures SumCounts(ValueCounts(xs, true)) == |xs|
    ensures |ValueCounts(xs, true)| > 0 ==> |xs| > 0
  {
    var t := Tally(xs);
    var r := SortBy(t, ByCountDesc);
    SortBySorted(t, ByCountDesc);
    SumOfSort(t, ByCountDesc);
    PermutedTable(r, t, xs);
    if |r| > 0 { assert r[0].0 == LevelsOf(r)[0]; }
  }

  /** A reordering of a tally is a tally of the same values. */
  lemma PermutedTable(r: seq<Count>, t: seq<Count>, xs: seq<Label>)
    requires multiset(r) == multiset(t)
    requires Distinct(LevelsOf(t))
    requires forall l :: l in LevelsOf(t) <==> l in xs
    requires forall i :: 0 <= i < |t| ==> t[i].1 == multiset(xs)[t[i].0]
    ensures Distinct(LevelsOf(r))
    ensures forall l :: l in LevelsOf(r) <==> l in xs
    ensures forall i :: 0 <= i < |r| ==> r[i].1 == multiset(xs)[r[i].0]
  {
    DistinctOfPermutation(r, t);
    forall i | 0 <= i < |r| ensures r[i].1 == multiset(xs)[r[i].0] && r[i].0 in xs {
      assert r[i] in multiset(t);
      var j :| 0 <= j < |t| && t[j] == r[i];
      assert LevelsOf(t)[j] == r[i].0;
    }
    forall l | l in xs ensures l in LevelsOf(r) {
      assert l in LevelsOf(t);
      var j :| 0 <= j < |t| && LevelsOf(t)[j] == l;
      assert t[j] in multiset(r);
      var i :| 0 <= i < |r| && r[i] == t[j];
      assert LevelsOf(r)[i] == l;
    }
  }

  // ---------------------------------------------------------------------------
  // `frequency`

  /** The column names of the frequency table. */
  const FrequencyColumns: seq<string> := ["Count", "%", "Cum %"]

  datatype FreqRow = FreqRow(level: Label, count: nat, pct: real, cumPct: real)

  datatype FreqTable = FreqTable(columns: seq<string>, rows: seq<FreqRow>)

  /** `part / whole * 100` (the table has no rows when the whole is zero). */
  function Percent(part: nat, whole: nat): real {
    if whole == 0 then 0.0 else part as real / whole as real * 100.0
  }

  /** The table rows for counts c, where `before` occurrences precede c and
      `total` is the sum of all counts: the running sum is `cumsum()`. */
  function RowsFrom(c: seq<Count>, before: nat, total: nat): (r: seq<FreqRow>)
    ensures |r| == |c|
    ensures forall i :: 0 <= i < |c| ==> r[i].level == c[i].0 && r[i].count == c[i].1 && r[i].pct == Percent(c[i].1, total)
  {
    if c == [] then []
    else
      var row := FreqRow(c[0].0, c[0].1, Percent(c[0].1, total), Percent(before + c[0].1, total));
      [row] + RowsFrom(c[1..], before + c[0].1, total)
  }

  lemma PercentMonotone(a: nat, b: nat, whole: nat)
    requires a <= b
    ensures Percent(a, whole) <= Percent(b, whole)
  {
    if whole > 0 {
      assert a as real / whole as real <= b as real / whole as real;
    }
  }

  /** The running percentage never decreases and starts above the part
      before. */
  lemma {:induction false} RowsFromMonotone(c: seq<Count>, before: nat, total: nat)
    ensures forall i, j :: 0 <= i < j < |c| ==> RowsFrom(c, before, total)[i].cumPct <= RowsFrom(c, before, total)[j].cumPct
    ensures forall i :: 0 <= i < |c| ==> Percent(before, total) <= RowsFrom(c, before, total)[i].cumPct
  {
    if c != [] {
      var r := RowsFrom(c, before, total);
      var rest := RowsFrom(c[1..], before + c[0].1, total);
      RowsFromMonotone(c[1..], before + c[0].1, total);
      assert r[0].cumPct == Percent(before + c[0].1, total);
      assert r[1..] == rest;
      PercentMonotone(before, before + c[0].1, total);
      forall i | 0 < i < |c| ensures r[i] == rest[i - 1] { }
    }
  }

  /** The last running percentage covers the part before and all counts. */
  lemma {:induction false} RowsFromLast(c: seq<Count>, before: nat, total: nat)
    requires |c| > 0
    ensures RowsFrom(c, before, total)[|c| - 1].cumPct == Percent(before + SumCounts(c), total)
  {
    var r := RowsFrom(c, before, total);
    var sum: nat := before + SumCounts(c);
    assert sum == (before + c[0].1) + SumCounts(c[1..]);
    if |c| == 1 {
      assert SumCounts(c[1..]) == 0;
      assert r[0].cumPct == Percent(sum, total);
    } else {
      RowsFromLast(c[1..], before + c[0].1, total);
      assert r[1..] == RowsFrom(c[1..], before + c[0].1, total);
      assert r[|c| - 1] == r[1..][|c| - 2];
    }
  }

  /** Rows that list the `value_counts()` c of some levels: one row per
      distinct level with its number of occurrences, the counts in
      non-increasing order. */
  lemma RowsOfCounts(c: seq<Count>, xs: seq<Label>, rows: seq<FreqRow>)
    requires |rows| == |c|
    requires forall i :: 0 <= i < |c| ==> rows[i].level == c[i].0 && rows[i].count == c[i].1
    requires Distinct(LevelsOf(c))
    requires forall l :: l in LevelsOf(c) <==> l in xs
    requires forall i :: 0 <= i < |c| ==> c[i].1 == multiset(xs)[c[i].0]
    requires SortedBy(c, ByCountDesc)
    ensures forall i, j :: 0 <= i < j < |rows| ==> rows[i].level != rows[j].level
    ensures forall l :: (exists i :: 0 <= i < |rows| && rows[i].level == l) <==> l in xs
    ensures forall i :: 0 <= i < |rows| ==> rows[i].count == multiset(xs)[rows[i].level]
    ensures forall i, j :: 0 <= i < j < |rows| ==> rows[i].count >= rows[j].count
  {
    forall l | l in xs ensures exists i :: 0 <= i < |rows| && rows[i].level == l {
      var i :| 0 <= i < |c| && LevelsOf(c)[i] == l;
      assert rows[i].level == l;
    }
    forall i, j | 0 <= i < j < |rows| ensures rows[i].level != rows[j].level {
      assert LevelsOf(c)[i] != LevelsOf(c)[j];
    }
  }

  lemma RowsPercent(c: seq<Count>, n: nat, rows: seq<FreqRow>)
    requires rows == RowsFrom(c, 0, n)
    requires SumCounts(c) == n && (|c| > 0 ==> n > 0)
    ensures forall i :: 0 <= i < |rows| ==> rows[i].pct == Percent(rows[i].count, n)
    ensures forall i, j :: 0 <= i < j < |rows| ==> rows[i].cumPct <= rows[j].cumPct
    ensures |rows| > 0 ==> rows[|rows| - 1].cumPct == 100.0
  {
    RowsFromMonotone(c, 0, n);
    if |c| > 0 {
      RowsFromLast(c, 0, n);
      PercentOfWhole(n);
    }
  }

  lemma PercentOfWhole(n: nat)
    requires n > 0
    ensures Percent(n, n) == 100.0
  {
    assert n as real / n as real == 1.0;
  }

  /** `frequency(name)`: a KeyError for an unknown column; otherwise, under
      the columns Count, %, Cum %, one row per distinct level of the column
      with its number of occurrences, the counts in non-increasing order, %
      the count over the number of values times 100, and Cum % the running
      percentage, non-decreasing and ending at 100. */
  function Frequency(df: Frame, name: string): (r: Result<FreqTable>)
    ensures r.Err? <==> name !in df.Names()
    ensures r.Err? ==> r.error == KeyError("Data has no attribute " + name + ".")
    ensures r.Ok? ==> var xs := Levels(df.Get(name).value.cells); var rows := r.value.rows;
      && r.value.columns == FrequencyColumns
      && (forall i, j :: 0 <= i < j < |rows| ==> rows[i].level != rows[j].level)
      && (forall l :: (exists i :: 0 <= i < |rows| && rows[i].level == l) <==> l in xs)
      && (forall i :: 0 <= i < |rows| ==> rows[i].count == multiset(xs)[rows[i].level])
      && (forall i, j :: 0 <= i < j < |rows| ==> rows[i].count >= rows[j].count)
      && (forall i :: 0 <= i < |rows| ==> rows[i].pct == Percent(rows[i].count, |xs|))
      && (forall i, j :: 0 <= i < j < |rows| ==> rows[i].cumPct <= rows[j].cumPct)
      && (|rows| > 0 ==> rows[|rows| - 1].cumPct == 100.0)
  {
    var check := AnalysisBase.CheckName(df, name);
    if check.Fail? then Err(check.error)
    else
      var xs := Levels(df.Get(name).value.cells);
      var counts := ValueCounts(xs, true);
      var rows := RowsFrom(counts, 0, SumCounts(counts));
      ValueCountsSorted(xs);
      RowsOfCounts(counts, xs, rows);
      RowsPercent(counts, |xs|, rows);
      Ok(FreqTable(FrequencyColumns, rows))
  }

  // ---------------------------------------------------------------------------
  // `_valsort` and `test_distribution`

  type Entry = (Label, Value)

  function Level(e: Entry): Label { e.0 }
  function Val(e: Entry): Value { e.1 }

  /** `sort_index()` compares entries by their level alone. */
  predicate ByLevel(a: Entry, b: Entry) { LabelLe(a.0, b.0) }

  lemma ByLevelPreorder()
    ensures Preorder(ByLevel)
    ensures forall a, b {:trigger ByLevel(a, b)} :: ByLevel(a, b) == LabelLe(Level(a), Level(b))
  {
    LabelLeTotalOrder();
  }

  function Zip(index: seq<Label>, values: seq<Value>): (r: seq<Entry>)
    requires |index| == |values|
    ensures |r| == |index| && forall i :: 0 <= i < |r| ==> r[i] == (index[i], values[i])
  {
    seq(|index|, i requires 0 <= i < |index| => (index[i], values[i]))
  }

  /** A pandas Series: an index of levels and the values at them. */
  class Series {
    var index: seq<Label>
    var values: seq<Value>

    predicate Valid()
      reads this
    {
      |index| == |values|
    }

    constructor(index: seq<Label>, values: seq<Value>)
      requires |index| == |values|
      ensures this.index == index && this.values == values && Valid()
    {
      this.index := index;
      this.values := values;
    }

    function Entries(): (r: seq<Entry>)
      reads this
      requires Valid()
      ensures |r| == |index|
    {
      Zip(index, values)
    }

    /** `sort_index(ascending=True, inplace=True)`: the entries are reordered
        by level, so the index becomes the sorted index. */
    method SortIndex()
      requires Valid()
      modifies this
      ensures Valid()
      ensures Entries() == SortBy(old(Entries()), ByLevel)
      ensures index == SortBy(old(index), LabelLe)
      ensures SortedBy(index, LabelLe)
    {
      var entries := Entries();
      var sorted := SortBy(entries, ByLevel);
      ByLevelPreorder();
      SortByKey(entries, ByLevel, Level, LabelLe);
      assert MapSeq(Level, entries) == index;
      index := MapSeq(Level, sorted);
      values := MapSeq(Val, sorted);
      assert Entries() == sorted;
      LabelLeTotalOrder();
      SortBySorted(old(index), LabelLe);
    }
  }

  /** What `_valsort` is given as expected frequencies: a Series, or a list,
      a dict or a scalar that `pd.Series(...)` turns into one. */
  datatype Expected =
    | FromSeries(series: Series)
    | FromList(items: seq<Value>)
    | FromDict(pairs: seq<Entry>)
    | FromScalar(v: Value)

  /** `pd.Series(expected)`: a list is indexed 0, 1, ...; a dict by its
      keys; a scalar becomes one entry at index 0. */
  function Coerced(e: Expected): (r: seq<Entry>)
    requires !e.FromSeries?
  {
    match e
    case FromList(items) => seq(|items|, i requires 0 <= i < |items| => (LNum(i as real), items[i]))
    case FromDict(pairs) => pairs
    case FromScalar(v) => [(LNum(0.0), v)]
  }

  /** The expected frequencies as entries, before any sorting. */
  function ExpectedEntries(e: Expected): seq<Entry>
    reads if e.FromSeries? then {e.series} else {}
    requires e.FromSeries? ==> e.series.Valid()
  {
    if e.FromSeries? then e.series.Entries() else Coerced(e)
  }

  const CategoryMismatch: string := "Categories in observed and expected do not match."

  /** `observed.index.sort_values().equals(expected.index.sort_values())`. */
  predicate SameCategories(obs: seq<Label>, exp: seq<Label>) {
    SortBy(obs, LabelLe) == SortBy(exp, LabelLe)
  }

  /** The categories match exactly when both indexes hold the same levels
      the same number of times. */
  lemma SameCategoriesIff(obs: seq<Label>, exp: seq<Label>)
    ensures SameCategories(obs, exp) <==> multiset(obs) == multiset(exp)
  {
    LabelLeTotalOrder();
    SortByEqualIff(obs, exp, LabelLe);
  }

  /** A plain string as expected frequencies is one entry at index 0, which
      never matches levels that include a string. */
  lemma ScalarNeverMatchesStrings(obs: seq<Label>, v: Value, k: nat)
    requires k < |obs| && obs[k].LStr?
    ensures !SameCategories(obs, MapSeq(Level, Coerced(FromScalar(v))))
  {
    SameCategoriesIff(obs, MapSeq(Level, Coerced(FromScalar(v))));
    assert obs[k] in multiset(obs);
  }

  /** `_valsort(observed, expected)`: a ValueError when the categories
      differ, leaving both untouched; otherwise both sorted in place by
      category (a non-Series expected is first made a new Series), so that
      their positions align. */
  method ValSort(observed: Series, expected: Expected) returns (r: Result<(Series, Series)>)
    requires observed.Valid()
    requires expected.FromSeries? ==> expected.series.Valid() && expected.series != observed
    modifies observed, if expected.FromSeries? then {expected.series} else {}
    ensures r.Err? <==> !SameCategories(old(observed.index), MapSeq(Level, old(ExpectedEntries(expected))))
    ensures r.Err? ==> r.error == ValueError(CategoryMismatch)
    ensures r.Err? ==> unchanged(observed) && (expected.FromSeries? ==> unchanged(expected.series))
    ensures r.Ok? ==> r.value.0 == observed && observed.Valid() && r.value.1.Valid()
    ensures r.Ok? ==> observed.Entries() == SortBy(old(observed.Entries()), ByLevel)
    ensures r.Ok? ==> r.value.1.Entries() == SortBy(old(ExpectedEntries(expected)), ByLevel)
    ensures r.Ok? && expected.FromSeries? ==> r.value.1 == expected.series
    ensures r.Ok? && !expected.FromSeries? ==> fresh(r.value.1)
    ensures r.Ok? ==> r.value.0.index == r.value.1.index && SortedBy(r.value.0.index, LabelLe)
  {
    var exp: Series;
    if expected.FromSeries? {
      exp := expected.series;
    } else {
      var entries := Coerced(expected);
      exp := new Series(MapSeq(Level, entries), MapSeq(Val, entries));
      assert exp.Entries() == entries;
    }
    assert exp.Entries() == ExpectedEntries(expected);
    assert MapSeq(Level, exp.Entries()) == exp.index;
    if !SameCategories(observed.index, exp.index) {
      return Err(ValueError(CategoryMismatch));
    }
    observed.SortIndex();
    exp.SortIndex();
    r := Ok((observed, exp));
  }

  const GoodnessOfFit: string := "Chi-Square Goodness of Fit"

  /** The `StatTestOne` result record of explorer/base.py. */
  datatype StatTestOne = StatTestOne(analyzer: string, test: string, x: string, statistic: real, pvalue: real)

  /** `scipy.stats.chisquare(f_obs, f_exp)`. */
  type ChiSquare = (seq<Value>, Option<seq<Value>>) -> StatOutcome

  /** `value_counts(sort=False)` of the column as a Series: each level in
      order of first appearance with its count. */
  function Observed(df: Frame, name: string): (r: seq<Entry>)
    requires name in df.Names()
    ensures |r| == |Tally(Levels(df.Get(name).value.cells))|
  {
    var t := Tally(Levels(df.Get(name).value.cells));
    Zip(LevelsOf(t), seq(|t|, i requires 0 <= i < |t| => Int(t[i].1)))
  }

  function Judged(analyzer: string, name: string, o: StatOutcome): (r: Result<StatTestOne>)
    ensures o.Returned? ==> r == Ok(StatTestOne(analyzer, GoodnessOfFit, name, o.statistic, o.pvalue))
    ensures o.Raised? ==> r == Err(o.error)
  {
    match o
    case Returned(statistic, pvalue) => Ok(StatTestOne(analyzer, GoodnessOfFit, name, statistic, pvalue))
    case Raised(e) => Err(e)
  }

  /** What `test_distribution` returns for the expected frequencies given as
      entries (None when no expected frequencies are given). */
  function TestDistributionResult(analyzer: string, df: Frame, name: string, expected: Option<seq<Entry>>, chisquare: ChiSquare): (r: Result<StatTestOne>)
    ensures name !in df.Names() ==> r == Err(KeyError("Data has no attribute " + name + "."))
    ensures r.Ok? ==> r.value.analyzer == analyzer && r.value.test == GoodnessOfFit && r.value.x == name
  {
    if name !in df.Names() then Err(KeyError("Data has no attribute " + name + "."))
    else
      var obs := Observed(df, name);
      match expected
      case None => Judged(analyzer, name, chisquare(MapSeq(Val, obs), None))
      case Some(exp) =>
        if !SameCategories(MapSeq(Level, obs), MapSeq(Level, exp)) then Err(ValueError(CategoryMismatch))
        else
          var o := chisquare(MapSeq(Val, SortBy(obs, ByLevel)), Some(MapSeq(Val, SortBy(exp, ByLevel))));
          Judged(analyzer, name, o)
  }

  /** When the categories match, the observed and expected frequencies handed
      to `chisquare` are both in ascending category order and category by
      category aligned. */
  lemma AlignedFrequencies(obs: seq<Entry>, exp: seq<Entry>)
    requires SameCategories(MapSeq(Level, obs), MapSeq(Level, exp))
    ensures MapSeq(Level, SortBy(obs, ByLevel)) == MapSeq(Level, SortBy(exp, ByLevel))
    ensures SortedBy(MapSeq(Level, SortBy(obs, ByLevel)), LabelLe)
  {
    ByLevelPreorder();
    SortByKey(obs, ByLevel, Level, LabelLe);
    SortByKey(exp, ByLevel, Level, LabelLe);
    LabelLeTotalOrder();
    SortBySorted(MapSeq(Level, obs), LabelLe);
  }

  /** The part of `test_distribution` after the column is found, with
      expected frequencies given: `_valsort` on a new Series of the observed
      counts and the expected ones, then `chisquare` on both value lists. */
  method TestAgainst(analyzer: string, name: string, obs: seq<Entry>, expected: Expected, chisquare: ChiSquare)
    returns (r: Result<StatTestOne>)
    requires expected.FromSeries? ==> expected.series.Valid()
    modifies if expected.FromSeries? then {expected.series} else {}
    ensures !SameCategories(MapSeq(Level, obs), MapSeq(Level, old(ExpectedEntries(expected)))) ==>
              r == Err(ValueError(CategoryMismatch))
    ensures SameCategories(MapSeq(Level, obs), MapSeq(Level, old(ExpectedEntries(expected)))) ==>
              r == Judged(analyzer, name, chisquare(MapSeq(Val, SortBy(obs, ByLevel)),
                                                    Some(MapSeq(Val, SortBy(old(ExpectedEntries(expected)), ByLevel)))))
    ensures expected.FromSeries? ==> expected.series.Valid()
    ensures expected.FromSeries? ==>
      if SameCategories(MapSeq(Level, obs), MapSeq(Level, old(expected.series.Entries())))
      then expected.series.Entries() == SortBy(old(expected.series.Entries()), ByLevel)
      else unchanged(expected.series)
  {
    ghost var exp := ExpectedEntries(expected);
    var observed := new Series(MapSeq(Level, obs), MapSeq(Val, obs));
    assert observed.Entries() == obs;
    assert observed.index == MapSeq(Level, obs);
    var pair := ValSort(observed, expected);
    if pair.Err? {
      assert !SameCategories(MapSeq(Level, obs), MapSeq(Level, exp));
      return Err(pair.error);
    }
    assert SameCategories(MapSeq(Level, obs), MapSeq(Level, exp));
    var (o, e) := pair.value;
    assert o.Entries() == SortBy(obs, ByLevel) && e.Entries() == SortBy(exp, ByLevel);
    assert o.values == MapSeq(Val, o.Entries());
    assert e.values == MapSeq(Val, e.Entries());
    r := Judged(analyzer, name, chisquare(o.values, Some(e.values)));
  }

  /** `test_distribution(name, expected)`: a KeyError for an unknown column
      before anything is computed; with no expected frequencies the observed
      counts alone go to `chisquare`; otherwise `_valsort` validates and
      aligns both, sorting a given expected Series in place. */
  method TestDistribution(analyzer: string, df: Frame, name: string, expected: Option<Expected>, chisquare: ChiSquare)
    returns (r: Result<StatTestOne>)
    requires expected.Some? && expected.value.FromSeries? ==> expected.value.series.Valid()
    modifies if expected.Some? && expected.value.FromSeries? then {expected.value.series} else {}
    ensures r == TestDistributionResult(analyzer, df, name,
      if expected.None? then None else Some(old(ExpectedEntries(expected.value))), chisquare)
    ensures expected.Some? && expected.value.FromSeries? ==> expected.value.series.Valid()
    ensures (expected.Some? && expected.value.FromSeries? && r.Ok?) ==>
      expected.value.series.Entries() == SortBy(old(expected.value.series.Entries()), ByLevel)
    ensures expected.Some? && expected.value.FromSeries? ==>
      var series := expected.value.series;
      if name in df.Names() && SameCategories(MapSeq(Level, Observed(df, name)), MapSeq(Level, old(series.Entries())))
      then series.Entries() == SortBy(old(series.Entries()), ByLevel)
      else unchanged(series)
  {
    var check := AnalysisBase.CheckName(df, name);
    if check.Fail? {
      return Err(check.error);
    }
    var obs := Observed(df, name);
    if expected.None? {
      var observed := new Series(MapSeq(Level, obs), MapSeq(Val, obs));
      return Judged(analyzer, name, chisquare(observed.values, None));
    }
    r := TestAgainst(analyzer, name, obs, expected.value, chisquare);
  }
}
