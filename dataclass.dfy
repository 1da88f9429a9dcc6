/** Record serialisation shared by the data-holder classes: `as_dict`,
    `_export_config`, `__repr__` and `__str__` of d8analysis/data/dataclass.py,
    and the `as_dict` / `_export_config` pair of the plot configuration
    classes in d8analysis/visual/config.py. */
module DataClass {
  import opened Text

  /** A Python value as far as the serialiser distinguishes values. */
  datatype Value =
    | NoneV
    | Str(s: string)
    | Int(i: int)
    | Float(r: real)
    | Bool(b: bool)
    | NumpyScalar(r: real)      // np.int8 ... np.float128
    | Datetime(stamp: int)
    | List(items: seq<Value>)
    | Tuple(items: seq<Value>)
    | Dict(entries: seq<Attr>)
    | Obj(rec: Record)          // an object that has `as_dict`
    | Other(kind: string)       // anything else: a DataFrame, an ndarray, ...

  /** One entry of an object's `__dict__` or of a dict. */
  datatype Attr = Attr(key: string, val: Value)

  /** Which base class supplies an object's `as_dict` / `_export_config`. */
  datatype Family = DataClassFamily | PlotConfigFamily

  /** An object: its class name, its base class and its `__dict__` in insertion order. */
  datatype Record = Record(className: string, family: Family, attrs: seq<Attr>)

  /** `isinstance(v, IMMUTABLE_TYPES)`; with no subclasses in the model this is
      also `type(v) in IMMUTABLE_TYPES`. */
  predicate IsImmutable(v: Value) {
    v.Str? || v.Int? || v.Float? || v.Bool? || v.NumpyScalar?
  }

  function Keys(attrs: seq<Attr>): (r: seq<string>)
    ensures |r| == |attrs|
    ensures forall i :: 0 <= i < |attrs| ==> r[i] == attrs[i].key
  {
    seq(|attrs|, i requires 0 <= i < |attrs| => attrs[i].key)
  }

  /** `_export_config` of the given family: immutable scalars, datetimes and
      dicts unchanged; lists and tuples element-wise; objects with `as_dict`
      converted; anything else None (data holders) or unchanged (plot
      configurations). */
  function Export(fam: Family, v: Value): Value
    decreases v
  {
    match v
    case NoneV => v
    case Str(_) => v
    case Int(_) => v
    case Float(_) => v
    case Bool(_) => v
    case NumpyScalar(_) => v
    case Datetime(_) => v
    case Dict(_) => v
    case List(items) => List(ExportSeq(fam, items))
    case Tuple(items) => Tuple(ExportSeq(fam, items))
    case Obj(rec) => Dict(ExportAttrs(rec.family, rec.attrs))
    case Other(_) => if fam == PlotConfigFamily then v else NoneV
  }

  /** `type(v)(map(cls._export_config, v))`. */
  function ExportSeq(fam: Family, items: seq<Value>): (r: seq<Value>)
    ensures |r| == |items|
    ensures forall i :: 0 <= i < |items| ==> r[i] == Export(fam, items[i])
    decreases items
  {
    if items == [] then [] else [Export(fam, items[0])] + ExportSeq(fam, items[1..])
  }

  /** The family's `as_dict` on an attribute list: the data-holder family drops
      names that start with "_", the plot-configuration family keeps all. */
  function ExportAttrs(fam: Family, attrs: seq<Attr>): (r: seq<Attr>)
    ensures forall k :: k in Keys(r) <==> k in Keys(attrs) && !(fam == DataClassFamily && IsPrivate(k))
    ensures forall i :: 0 <= i < |attrs| && !(fam == DataClassFamily && IsPrivate(attrs[i].key)) ==>
              Attr(attrs[i].key, Export(fam, attrs[i].val)) in r
    ensures fam == PlotConfigFamily ==> |r| == |attrs|
    decreases attrs
  {
    if attrs == [] then []
    else
      var head := if fam == DataClassFamily && IsPrivate(attrs[0].key) then []
                  else [Attr(attrs[0].key, Export(fam, attrs[0].val))];
      var rest := ExportAttrs(fam, attrs[1..]);
      assert [attrs[0]] + attrs[1..] == attrs;
      KeysCons(fam, attrs[0], attrs[1..], head, rest);
      assert forall i :: 0 < i < |attrs| ==> attrs[i] == attrs[1..][i - 1];
      head + rest
  }

  /** The key part of the contract of `ExportAttrs` carries over from the
      tail to the whole list. */
  lemma KeysCons(fam: Family, a: Attr, tail: seq<Attr>, head: seq<Attr>, rest: seq<Attr>)
    requires |head| <= 1 && (head == [] <==> fam == DataClassFamily && IsPrivate(a.key))
    requires head != [] ==> head[0].key == a.key
    requires forall k :: k in Keys(rest) <==> k in Keys(tail) && !(fam == DataClassFamily && IsPrivate(k))
    requires fam == PlotConfigFamily ==> |rest| == |tail|
    ensures forall k :: k in Keys(head + rest) <==> k in Keys([a] + tail) && !(fam == DataClassFamily && IsPrivate(k))
    ensures fam == PlotConfigFamily ==> |head + rest| == |[a] + tail|
  {
    assert Keys(head + rest) == Keys(head) + Keys(rest);
    assert Keys([a] + tail) == Keys([a]) + Keys(tail);
    assert Keys(head) == if head == [] then [] else [a.key];
    assert Keys([a]) == [a.key];
    assert forall k :: k in Keys(head + rest) <==> k in Keys(head) || k in Keys(rest);
    assert forall k :: k in Keys([a] + tail) <==> k == a.key || k in Keys(tail);
  }

  /** `as_dict` of an object, by its own base class. */
  function AsDict(rec: Record): (r: seq<Attr>)
    ensures forall k :: k in Keys(r) <==>
              k in Keys(rec.attrs) && !(rec.family == DataClassFamily && IsPrivate(k))
  {
    ExportAttrs(rec.family, rec.attrs)
  }

  /** What `_export_config` can hand back: no object with `as_dict` left at the
      top or inside a list or tuple, and for data holders no other object.
      Dicts are passed through, so their contents are not constrained. */
  predicate Exported(fam: Family, v: Value) {
    match v
    case Obj(_) => false
    case Other(_) => fam == PlotConfigFamily
    case List(items) => forall i :: 0 <= i < |items| ==> Exported(fam, items[i])
    case Tuple(items) => forall i :: 0 <= i < |items| ==> Exported(fam, items[i])
    case _ => true
  }

  lemma {:induction false} ExportIsExported(fam: Family, v: Value)
    ensures Exported(fam, Export(fam, v))
  {
    match v
    case List(items) =>
      forall i | 0 <= i < |items| ensures Exported(fam, Export(fam, items[i])) {
        ExportIsExported(fam, items[i]);
      }
    case Tuple(items) =>
      forall i | 0 <= i < |items| ensures Exported(fam, Export(fam, items[i])) {
        ExportIsExported(fam, items[i]);
      }
    case _ =>
  }

  lemma {:induction false} ExportFixesExported(fam: Family, v: Value)
    requires Exported(fam, v)
    ensures Export(fam, v) == v
  {
    match v
    case List(items) =>
      forall i | 0 <= i < |items| ensures Export(fam, items[i]) == items[i] {
        ExportFixesExported(fam, items[i]);
      }
      assert ExportSeq(fam, items) == items;
    case Tuple(items) =>
      forall i | 0 <= i < |items| ensures Export(fam, items[i]) == items[i] {
        ExportFixesExported(fam, items[i]);
      }
      assert ExportSeq(fam, items) == items;
    case _ =>
  }

  /** Exporting twice is exporting once. */
  lemma ExportIdempotent(fam: Family, v: Value)
    ensures Export(fam, Export(fam, v)) == Export(fam, v)
  {
    ExportIsExported(fam, v);
    ExportFixesExported(fam, Export(fam, v));
  }

  /** Lists and tuples keep their kind and length under export. */
  lemma ExportKeepsContainers(fam: Family, v: Value)
    requires v.List? || v.Tuple?
    ensures Export(fam, v).List? == v.List? && Export(fam, v).Tuple? == v.Tuple?
    ensures |Export(fam, v).items| == |v.items|
  {
  }

  /** The attributes `__repr__` shows: those of an immutable type, in order. */
  function ImmutableAttrs(attrs: seq<Attr>): (r: seq<Attr>)
    ensures forall a :: a in r <==> a in attrs && IsImmutable(a.val)
    ensures |r| <= |attrs|
  {
    if attrs == [] then []
    else (if IsImmutable(attrs[0].val) then [attrs[0]] else []) + ImmutableAttrs(attrs[1..])
  }

  /** The filter keeps declaration order. */
  lemma {:induction false} ImmutableAttrsAppend(a: seq<Attr>, b: seq<Attr>)
    ensures ImmutableAttrs(a + b) == ImmutableAttrs(a) + ImmutableAttrs(b)
  {
    if a != [] {
      assert (a + b)[0] == a[0];
      assert (a + b)[1..] == a[1..] + b;
      ImmutableAttrsAppend(a[1..], b);
    } else {
      assert a + b == b;
    }
  }

  /** `f"{k}={v!r}"` for each attribute. */
  function ReprItems(attrs: seq<Attr>, showRepr: Value -> string): (r: seq<string>)
    ensures |r| == |attrs|
    ensures forall i :: 0 <= i < |attrs| ==> r[i] == attrs[i].key + "=" + showRepr(attrs[i].val)
  {
    seq(|attrs|, i requires 0 <= i < |attrs| => attrs[i].key + "=" + showRepr(attrs[i].val))
  }

  /** `__repr__`: `Name(k=v, ...)` over the immutable attributes in order,
      private ones included; `showRepr` stands for `repr()` of a value. */
  function Repr(rec: Record, showRepr: Value -> string): (r: string)
    ensures |r| >= |rec.className| + 2
    ensures r[..|rec.className| + 1] == rec.className + "("
    ensures r[|rec.className| + 1..|r| - 1] == Join(", ", ReprItems(ImmutableAttrs(rec.attrs), showRepr))
    ensures r[|r| - 1] == ')'
  {
    var items := Join(", ", ReprItems(ImmutableAttrs(rec.attrs), showRepr));
    var r := rec.className + "(" + items + ")";
    assert r[|rec.className| + 1..|r| - 1] == items;
    r
  }

  /** An attribute of a mutable type added to an object does not show in its
      `__repr__`. */
  lemma ReprSkipsMutable(rec: Record, a: Attr, showRepr: Value -> string)
    requires !IsImmutable(a.val)
    ensures Repr(rec.(attrs := rec.attrs + [a]), showRepr) == Repr(rec, showRepr)
  {
    ImmutableAttrsAppend(rec.attrs, [a]);
    assert ImmutableAttrs([a]) == [];
    assert ImmutableAttrs(rec.attrs) + [] == ImmutableAttrs(rec.attrs);
  }

  /** An attribute of an immutable type added to an object shows last in its
      `__repr__`, after a comma when others show before it. */
  lemma ReprAppendsImmutable(rec: Record, a: Attr, showRepr: Value -> string)
    requires IsImmutable(a.val)
    ensures var before := Repr(rec, showRepr);
            Repr(rec.(attrs := rec.attrs + [a]), showRepr) ==
              before[..|before| - 1] + (if ImmutableAttrs(rec.attrs) == [] then "" else ", ")
              + a.key + "=" + showRepr(a.val) + ")"
  {
    var shown := ImmutableAttrs(rec.attrs);
    var item := a.key + "=" + showRepr(a.val);
    var middle := Join(", ", ReprItems(shown, showRepr));
    var sep := if shown == [] then "" else ", ";
    assert Join(", ", ReprItems(ImmutableAttrs(rec.attrs + [a]), showRepr)) == middle + sep + item by {
      var items := ReprItems(shown, showRepr);
      ShownAfterAppend(rec.attrs, a);
      assert ReprItems(shown + [a], showRepr) == items + [item];
      JoinSnoc(", ", items, item);
    }
    var before := Repr(rec, showRepr);
    assert before[..|before| - 1] == rec.className + "(" + middle;
    Assemble(rec.className + "(", middle, sep, a.key, showRepr(a.val));
  }

  /** The string steps of `ReprAppendsImmutable`. */
  lemma Assemble(open: string, middle: string, sep: string, key: string, val: string)
    ensures open + (middle + sep + (key + "=" + val)) + ")" == (open + middle) + sep + key + "=" + val + ")"
  {
  }

  lemma ShownAfterAppend(attrs: seq<Attr>, a: Attr)
    requires IsImmutable(a.val)
    ensures ImmutableAttrs(attrs + [a]) == ImmutableAttrs(attrs) + [a]
  {
    ImmutableAttrsAppend(attrs, [a]);
    assert [a][1..] == [];
  }

  const Width: nat := 32

  /** One line of `__str__` for an immutable entry. */
  function StrLine(a: Attr, capitalizeKeys: bool, show: Value -> string): string
  {
    "\n" + RJust(if capitalizeKeys then Capitalize(a.key) else a.key, Width) + " | " + show(a.val)
  }

  /** The lines `__str__` emits for the entries `d`, one per immutable value. */
  function StrLines(d: seq<Attr>, capitalizeKeys: bool, show: Value -> string): string
  {
    if d == [] then ""
    else
      StrLines(d[..|d| - 1], capitalizeKeys, show)
      + (if IsImmutable(d[|d| - 1].val) then StrLine(d[|d| - 1], capitalizeKeys, show) else "")
  }

  /** Lines of a concatenation are the concatenation of the lines. */
  lemma {:induction false} StrLinesAppend(a: seq<Attr>, b: seq<Attr>, capitalizeKeys: bool, show: Value -> string)
    ensures StrLines(a + b, capitalizeKeys, show) == StrLines(a, capitalizeKeys, show) + StrLines(b, capitalizeKeys, show)
    decreases |b|
  {
    if b != [] {
      assert (a + b)[..|a + b| - 1] == a + b[..|b| - 1];
      StrLinesAppend(a, b[..|b| - 1], capitalizeKeys, show);
    } else {
      assert a + b == a;
    }
  }

  /** Only immutable entries produce lines. */
  lemma {:induction false} StrLinesOnlyImmutable(d: seq<Attr>, capitalizeKeys: bool, show: Value -> string)
    ensures StrLines(d, capitalizeKeys, show) == StrLines(ImmutableAttrs(d), capitalizeKeys, show)
  {
    if d != [] {
      var head := if IsImmutable(d[0].val) then [d[0]] else [];
      assert d == [d[0]] + d[1..];
      StrLinesAppend([d[0]], d[1..], capitalizeKeys, show);
      StrLinesOnlyImmutable(d[1..], capitalizeKeys, show);
      StrLinesAppend(head, ImmutableAttrs(d[1..]), capitalizeKeys, show);
      assert StrLines([d[0]], capitalizeKeys, show) == StrLines(head, capitalizeKeys, show) by {
        assert [d[0]][..0] == [];
        if head == [] {
          assert StrLines([d[0]], capitalizeKeys, show) == "";
        }
      }
    }
  }

  /** Text written before the lines of the first i entries, followed by the
      line of entry i, is that text followed by the lines of i + 1 entries. */
  lemma StrLinesSnoc(header: string, d: seq<Attr>, i: nat, capitalizeKeys: bool, show: Value -> string)
    requires i < |d|
    ensures header + StrLines(d[..i + 1], capitalizeKeys, show) ==
            header + StrLines(d[..i], capitalizeKeys, show)
            + (if IsImmutable(d[i].val) then StrLine(d[i], capitalizeKeys, show) else "")
  {
    assert d[..i + 1][..i] == d[..i];
  }

  /** The header of `__str__`: two line breaks, then the class name centred
      in 64 columns; a name of 64 characters or more is kept whole. */
  function StrHeader(rec: Record): (r: string)
    ensures |r| >= 2 && r[..2] == "\n\n"
    ensures |rec.className| >= 2 * Width ==> r[2..] == rec.className
    ensures |rec.className| < 2 * Width ==>
              var left := 2 + CenterLeft(|rec.className|, 2 * Width);
              && |r| == 2 + 2 * Width
              && r[left..left + |rec.className|] == rec.className
  {
    "\n\n" + Center(rec.className, 2 * Width)
  }

  /** Around a name shorter than 64 characters the header holds only spaces. */
  lemma StrHeaderPadding(rec: Record)
    requires |rec.className| < 2 * Width
    ensures var r := StrHeader(rec);
            var left := 2 + CenterLeft(|rec.className|, 2 * Width);
            forall i :: 2 <= i < |r| && !(left <= i < left + |rec.className|) ==> r[i] == Space
  {
    var c := Center(rec.className, 2 * Width);
    assert forall i :: 2 <= i < |StrHeader(rec)| ==> StrHeader(rec)[i] == c[i - 2];
  }

  /** `__str__`: the header, one line per immutable entry of `as_dict`, then a
      blank line. The d8analysis data holders capitalise each key; the test
      profile's own `__str__` does not. */
  method ToStr(rec: Record, capitalizeKeys: bool, show: Value -> string) returns (s: string)
    ensures s == StrHeader(rec) + StrLines(AsDict(rec), capitalizeKeys, show) + "\n\n"
  {
    s := StrHeader(rec);
    ghost var header := s;
    var d := AsDict(rec);
    assert d[..0] == [];
    for i := 0 to |d|
      invariant s == header + StrLines(d[..i], capitalizeKeys, show)
    {
      var line := if IsImmutable(d[i].val) then StrLine(d[i], capitalizeKeys, show) else "";
      StrLinesSnoc(header, d, i, capitalizeKeys, show);
      s := s + line;
    }
    assert d[..|d|] == d;
    s := s + "\n\n";
  }
}
