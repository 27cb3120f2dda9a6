/** Numeric extents along one axis: the values an axis range takes, how a
    range is widened to cover another (Expand) and how it is zoomed. */
module Extents {

  /** A closed interval [lo, hi] of data values. */
  datatype Interval = Interval(lo: real, hi: real) {
    predicate WellFormed() { lo <= hi }
    predicate Contains(inner: Interval) { lo <= inner.lo && inner.hi <= hi }
    predicate Includes(v: real) { lo <= v <= hi }
    function Span(): real { hi - lo }
  }

  /** The bounding box of a plottable's data, one interval per dimension. */
  datatype DataArea = DataArea(x: Interval, y: Interval)

  /** The smallest interval covering both arguments: what Expand widens a valid range to. */
  function Union(a: Interval, b: Interval): (r: Interval)
    ensures r.Contains(a) && r.Contains(b)
    ensures r.lo == a.lo || r.lo == b.lo
    ensures r.hi == a.hi || r.hi == b.hi
  {
    Interval(if a.lo <= b.lo then a.lo else b.lo, if b.hi <= a.hi then a.hi else b.hi)
  }

  /** The interval with the same centre whose span is the old span divided
      by frac: a fraction below one zooms out, above one zooms in. */
  function Zoomed(r: Interval, frac: real): (z: Interval)
    requires frac > 0.0
    ensures z.lo + z.hi == r.lo + r.hi
    ensures z.Span() * frac == r.Span()
  {
    var center := (r.lo + r.hi) / 2.0;
    var half := (r.hi - r.lo) / (2.0 * frac);
    assert half * 2.0 * frac == r.hi - r.lo;
    Interval(center - half, center + half)
  }

  /** Zooming out (0 < frac <= 1) never loses any part of a well-formed range. */
  lemma ZoomOutContains(r: Interval, frac: real)
    requires r.WellFormed() && 0.0 < frac <= 1.0
    ensures Zoomed(r, frac).WellFormed() && Zoomed(r, frac).Contains(r)
  {
    var z := Zoomed(r, frac);
    assert z.Span() * frac == r.Span();
    assert z.Span() >= 0.0;
    assert z.Span() >= r.Span() by {
      assert z.Span() * frac <= z.Span() * 1.0;
    }
  }

  /** A zoom fraction of one (a zero margin) leaves a range as it is. */
  lemma ZoomByOne(r: Interval)
    ensures Zoomed(r, 1.0) == r
  {
    var z := Zoomed(r, 1.0);
    assert z.Span() == r.Span();
  }

  /** Zooming out by a fraction strictly below one puts a non-degenerate
      range strictly inside the result, at both ends. */
  lemma ZoomOutStrict(r: Interval, frac: real)
    requires r.lo < r.hi && 0.0 < frac < 1.0
    ensures Zoomed(r, frac).lo < r.lo && r.hi < Zoomed(r, frac).hi
  {
    var z := Zoomed(r, frac);
    assert z.Span() * frac == r.Span();
    assert z.Span() > 0.0;
    assert z.Span() > r.Span() by {
      assert z.Span() * frac < z.Span() * 1.0;
    }
  }

  /** The tightest interval holding every value of s; [0, 0] for no values. */
  function Bounds(s: seq<real>): (r: Interval)
    ensures r.WellFormed()
    ensures forall i :: 0 <= i < |s| ==> r.Includes(s[i])
    ensures s != [] ==> r.lo in s && r.hi in s
    decreases |s|
  {
    if |s| == 0 then Interval(0.0, 0.0)
    else if |s| == 1 then Interval(s[0], s[0])
    else
      var rest := Bounds(s[1..]);
      assert rest.lo in s && rest.hi in s;
      Union(Interval(s[0], s[0]), rest)
  }

  /** The extent of each series, in order. */
  function ExtentsOf(series: seq<seq<real>>): (e: seq<Interval>)
    ensures |e| == |series|
  {
    seq(|series|, k requires 0 <= k < |series| => Bounds(series[k]))
  }

  /** The range reached by Set on the first extent followed by Expand on
      each later one, in order. */
  function Fold(s: seq<Interval>): (r: Interval)
    requires s != []
    ensures forall k :: 0 <= k < |s| ==> r.Contains(s[k])
    ensures exists k :: 0 <= k < |s| && r.lo == s[k].lo
    ensures exists k :: 0 <= k < |s| && r.hi == s[k].hi
    ensures (forall k :: 0 <= k < |s| ==> s[k].WellFormed()) ==> r.WellFormed()
    decreases |s|
  {
    if |s| == 1 then s[0]
    else
      var init := s[..|s| - 1];
      var prev := Fold(init);
      assert forall k :: 0 <= k < |init| ==> init[k] == s[k];
      Union(prev, s[|s| - 1])
  }

  /** Set on the first extent gives the fold of a one-element prefix. */
  lemma FoldFirst(s: seq<Interval>)
    requires s != []
    ensures Fold(s[..1]) == s[0]
  {
    assert s[..1] == [s[0]];
  }

  /** Expanding the fold of a prefix by the next extent gives the fold of
      the prefix one longer. */
  lemma FoldStep(s: seq<Interval>, i: nat)
    requires 1 <= i < |s|
    ensures Fold(s[..i + 1]) == Union(Fold(s[..i]), s[i])
  {
    assert s[..i + 1][..i] == s[..i];
  }

  /** The extent of three values, computed out. */
  lemma BoundsOfThree(a: real, b: real, c: real)
    ensures Bounds([a, b, c]).lo == Union(Interval(a, a), Union(Interval(b, b), Interval(c, c))).lo
    ensures Bounds([a, b, c]).hi == Union(Interval(a, a), Union(Interval(b, b), Interval(c, c))).hi
  {
    assert [a, b, c][1..] == [b, c];
    assert [b, c][1..] == [c];
  }

  /** The folded range depends only on which extents occur, not on their
      order or repetition: Expand is commutative and associative. */
  lemma FoldDependsOnlyOnMembers(s: seq<Interval>, t: seq<Interval>)
    requires s != [] && t != []
    requires forall a :: a in s <==> a in t
    ensures Fold(s) == Fold(t)
  {
    FoldBelow(s, t);
    FoldBelow(t, s);
  }

  /** Helper: if every extent of s occurs in t, the fold of t covers the fold of s. */
  lemma FoldBelow(s: seq<Interval>, t: seq<Interval>)
    requires s != [] && t != []
    requires forall a :: a in s ==> a in t
    ensures Fold(t).Contains(Fold(s))
  {
    var fs, ft := Fold(s), Fold(t);
    var i :| 0 <= i < |s| && fs.lo == s[i].lo;
    var j :| 0 <= j < |s| && fs.hi == s[j].hi;
    assert s[i] in t && s[j] in t;
    var i' :| 0 <= i' < |t| && t[i'] == s[i];
    var j' :| 0 <= j' < |t| && t[j'] == s[j];
    assert ft.Contains(t[i']) && ft.Contains(t[j']);
  }

  /** The range AutoAxis leaves behind: the fold of the extents (or the
      current range when there are none), zoomed out by the margin. */
  function AutoRange(extents: seq<Interval>, current: Interval, margin: real): Interval
    requires margin < 1.0
  {
    Zoomed(if extents == [] then current else Fold(extents), 1.0 - margin)
  }

  /** Every data value of every series lies in the fold of the series' extents. */
  lemma FoldCoversSeries(series: seq<seq<real>>, k: nat, j: nat)
    requires k < |series| && j < |series[k]|
    ensures Fold(ExtentsOf(series)).WellFormed()
    ensures Fold(ExtentsOf(series)).Includes(series[k][j])
  {
    var e := ExtentsOf(series);
    assert e[k] == Bounds(series[k]);
    assert Fold(e).Contains(e[k]);
    forall m | 0 <= m < |e| ensures e[m].WellFormed() {
      assert e[m] == Bounds(series[m]);
    }
  }

  /** With a margin in [0, 1), every data value of every series lies inside
      the automatic range. */
  lemma AutoRangeCoversPoints(series: seq<seq<real>>, current: Interval, margin: real, k: nat, j: nat)
    requires 0.0 <= margin < 1.0
    requires k < |series| && j < |series[k]|
    ensures AutoRange(ExtentsOf(series), current, margin).Includes(series[k][j])
  {
    var f := Fold(ExtentsOf(series));
    FoldCoversSeries(series, k, j);
    ZoomOutContains(f, 1.0 - margin);
    assert AutoRange(ExtentsOf(series), current, margin) == Zoomed(f, 1.0 - margin);
  }

  /** With a positive margin and data that does not collapse to one value,
      every data value lies strictly inside the automatic range. */
  lemma AutoRangeStrictlyInside(series: seq<seq<real>>, current: Interval, margin: real, k: nat, j: nat)
    requires 0.0 < margin < 1.0
    requires k < |series| && j < |series[k]|
    requires Fold(ExtentsOf(series)).lo < Fold(ExtentsOf(series)).hi
    ensures AutoRange(ExtentsOf(series), current, margin).lo < series[k][j]
    ensures series[k][j] < AutoRange(ExtentsOf(series), current, margin).hi
  {
    var f := Fold(ExtentsOf(series));
    FoldCoversSeries(series, k, j);
    ZoomOutStrict(f, 1.0 - margin);
    assert AutoRange(ExtentsOf(series), current, margin) == Zoomed(f, 1.0 - margin);
  }
}
