/** The drawing surface the plotting code touches, reduced to what the core
    decides: the tick labels and their size on each axis, and the artists
    (filled regions, markers, annotations) added to it in order. */
module Plotting {
  import opened Wrappers

  datatype Artist =
    | Line(pts: seq<(real, real)>)      // the (x, y) points of a drawn curve
    | FillUnder(lo: real, hi: real)    // the area under the drawn density between lo and hi
    | FillBetween(xs: seq<real>, ys: seq<real>)   // the area between zero and the points (xs, ys)
    | Marker(x: real, y: real)
    | Annotation(text: string, x: real, y: real)

  class Axes {
    var xticklabels: seq<string>
    var yticklabels: seq<string>
    var xlabelsize: int
    var ylabelsize: int
    var artists: seq<Artist>
    var title: string
    var xlabel: string
    var ylabel: string

    constructor (xticklabels: seq<string>, yticklabels: seq<string>)
      ensures this.xticklabels == xticklabels && this.yticklabels == yticklabels
      ensures artists == []
    {
      this.xticklabels := xticklabels;
      this.yticklabels := yticklabels;
      xlabelsize, ylabelsize := 10, 10;
      artists := [];
      title, xlabel, ylabel := "", "", "";
    }

    method Add(a: Artist)
      modifies this`artists
      ensures artists == old(artists) + [a]
    {
      artists := artists + [a];
    }
  }

  /** `pdf(xs, n)`: the density for n applied to every point of a grid. */
  function Density(pdf: (real, nat) -> real, n: nat, xs: seq<real>): (r: seq<real>)
    ensures |r| == |xs| && forall i :: 0 <= i < |xs| ==> r[i] == pdf(xs[i], n)
  {
    seq(|xs|, i requires 0 <= i < |xs| => pdf(xs[i], n))
  }

  /** `np.linspace(start, stop, num)`: num evenly spaced points, the first at
      start and the last at stop, in order from start to stop. */
  function Linspace(start: real, stop: real, num: nat): (r: seq<real>)
    ensures |r| == num
    ensures num >= 1 ==> r[0] == start
    ensures num >= 2 ==> r[num - 1] == stop
    ensures start <= stop ==> forall i, j :: 0 <= i <= j < num ==> r[i] <= r[j]
  {
    if num == 0 then []
    else if num == 1 then [start]
    else
      var r := seq(num, i requires 0 <= i < num => if i == num - 1 then stop else LinspacePoint(start, stop, num, i));
      forall i, j | 0 <= i <= j < num && start <= stop ensures r[i] <= r[j] {
        if j < num - 1 {
          LinspaceStep(start, stop, num, i, j);
        } else {
          LinspaceStep(start, stop, num, i, num - 1);
        }
      }
      r
  }

  /** The distance between neighbouring points. */
  function LinspaceStepSize(start: real, stop: real, num: nat): real
    requires num >= 2
  {
    (stop - start) / ((num - 1) as real)
  }

  /** The i-th point, i steps from start, as numpy computes it. */
  function LinspacePoint(start: real, stop: real, num: nat, i: nat): real
    requires num >= 2
  {
    start + (i as real) * LinspaceStepSize(start, stop, num)
  }

  lemma LinspaceStep(start: real, stop: real, num: nat, i: nat, j: nat)
    requires num >= 2 && i <= j <= num - 1 && start <= stop
    ensures LinspacePoint(start, stop, num, i) <= LinspacePoint(start, stop, num, j)
    ensures LinspacePoint(start, stop, num, i) <= stop
  {
    var d := LinspaceStepSize(start, stop, num);
    var c := (num - 1) as real;
    assert d >= 0.0;
    assert c * d == stop - start;
    assert (j as real) * d - (i as real) * d == ((j - i) as real) * d;
    assert ((j - i) as real) * d >= 0.0;
    assert c * d - (i as real) * d == ((num - 1 - i) as real) * d;
    assert ((num - 1 - i) as real) * d >= 0.0;
  }

  /** The points of a curve drawn through (xs[i], ys[i]). */
  function Zip(xs: seq<real>, ys: seq<real>): (r: seq<(real, real)>)
    requires |ys| == |xs|
    ensures |r| == |xs| && forall i :: 0 <= i < |xs| ==> r[i] == (xs[i], ys[i])
  {
    seq(|xs|, i requires 0 <= i < |xs| => (xs[i], ys[i]))
  }

  /** `line.get_xydata()[:, 0]`. */
  function XData(pts: seq<(real, real)>): (r: seq<real>)
    ensures |r| == |pts| && forall i :: 0 <= i < |pts| ==> r[i] == pts[i].0
  {
    seq(|pts|, i requires 0 <= i < |pts| => pts[i].0)
  }

  /** `line.get_xydata()[:, 1]`. */
  function YData(pts: seq<(real, real)>): (r: seq<real>)
    ensures |r| == |pts| && forall i :: 0 <= i < |pts| ==> r[i] == pts[i].1
  {
    seq(|pts|, i requires 0 <= i < |pts| => pts[i].1)
  }

  /** Reading back the points of a drawn curve gives the x and y values it
      was drawn from. */
  lemma DataOfZip(xs: seq<real>, ys: seq<real>)
    requires |ys| == |xs|
    ensures XData(Zip(xs, ys)) == xs && YData(Zip(xs, ys)) == ys
  {
    assert forall i :: 0 <= i < |xs| ==> XData(Zip(xs, ys))[i] == xs[i];
    assert forall i :: 0 <= i < |xs| ==> YData(Zip(xs, ys))[i] == ys[i];
  }

  /** `ax.lines[0]`: the position of the first curve among the artists; None
      where matplotlib raises IndexError. */
  function FirstLine(artists: seq<Artist>): (r: Option<nat>)
    ensures r.Some? ==> r.value < |artists| && artists[r.value].Line?
    ensures r.Some? ==> forall j :: 0 <= j < r.value ==> !artists[j].Line?
    ensures r.None? <==> forall j :: 0 <= j < |artists| ==> !artists[j].Line?
  {
    if artists == [] then None
    else if artists[0].Line? then Some(0)
    else
      match FirstLine(artists[1..])
      case None => None
      case Some(i) => Some(i + 1)
  }

  /** The x and y values of `ax.lines[0]`; None where matplotlib raises
      IndexError. */
  function FirstLineData(artists: seq<Artist>): (r: Option<(seq<real>, seq<real>)>)
    ensures r.None? <==> forall j :: 0 <= j < |artists| ==> !artists[j].Line?
    ensures r.Some? ==> |r.value.1| == |r.value.0|
    ensures r.Some? ==> exists j :: 0 <= j < |artists| && artists[j].Line? && XData(artists[j].pts) == r.value.0
  {
    match FirstLine(artists)
    case None => None
    case Some(k) => Some((XData(artists[k].pts), YData(artists[k].pts)))
  }

  /** On axes that hold no curve yet, the first curve after drawing one is
      the one just drawn, whatever is added after it. */
  lemma FirstLineDataOfFresh(artists: seq<Artist>, xs: seq<real>, ys: seq<real>, later: seq<Artist>)
    requires |ys| == |xs|
    requires forall j :: 0 <= j < |artists| ==> !artists[j].Line?
    ensures FirstLineData(artists + [Line(Zip(xs, ys))] + later) == Some((xs, ys))
  {
    var drawn := artists + [Line(Zip(xs, ys))] + later;
    assert drawn[|artists|].Line?;
    assert forall j :: 0 <= j < |artists| ==> drawn[j] == artists[j];
    assert FirstLine(drawn) == Some(|artists|);
    DataOfZip(xs, ys);
  }

  /** `np.where(xs > v)[0][0]`: the first position whose value exceeds v;
      None where numpy raises IndexError. */
  function FirstAbove(xs: seq<real>, v: real): (r: Option<nat>)
    ensures r.Some? ==> r.value < |xs| && xs[r.value] > v
    ensures r.Some? ==> forall j :: 0 <= j < r.value ==> xs[j] <= v
    ensures r.None? <==> forall j :: 0 <= j < |xs| ==> xs[j] <= v
  {
    if xs == [] then None
    else if xs[0] > v then Some(0)
    else
      match FirstAbove(xs[1..], v)
      case None => None
      case Some(i) => Some(i + 1)
  }
}
