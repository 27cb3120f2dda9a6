/** Clients of the plot: short runs whose outcomes follow from the plot's
    contracts alone (auto-scaling one series, sharing and unsharing an
    axis between two plots, rendering into two rectangles in turn). */
module Scenarios {
  import opened Extents
  import opened PlotSettings
  import opened Plottables
  import opened QuickPlot

  /** The extents of a plot holding a single plottable. */
  lemma SingleSeriesExtents(q: Plottable)
    ensures ExtentsOf(XSeries([q])) == [Bounds(q.xs)]
    ensures ExtentsOf(YSeries([q])) == [Bounds(q.ys)]
  {
  }

  /** A client: one series at x = 0, 1, 2 and y = 0, 1, 0 scaled with no
      margin gives the X range [0, 2] and the Y range [0, 1]. */
  method AutoAxisScenario(bands: Bands)
  {
    var p := new Plot(bands, 40.0);
    p.Scatter([0.0, 1.0, 2.0], [0.0, 1.0, 0.0], None);
    var q := Plottables.Scatter([0.0, 1.0, 2.0], [0.0, 1.0, 0.0], Style(0));
    assert p.plottables == [q];
    p.AutoAxis(0.0, 0.0);
    BoundsOfThree(0.0, 1.0, 2.0);
    BoundsOfThree(0.0, 1.0, 0.0);
    SingleSeriesExtents(q);
    assert p.axes.x.Value() == Interval(0.0, 2.0);
    assert p.axes.y.Value() == Interval(0.0, 1.0);
  }

  /** A client: while plot a shares plot b's X range, auto-scaling a moves
      b's X range too, and leaves b's own Y range alone. */
  method SharedAxisScenario(bands: Bands)
  {
    var a := new Plot(bands, 40.0);
    var b := new Plot(bands, 40.0);
    a.ShareAxis(b, null);
    assert a.axes.x == b.axes.x && a.axes.y != b.axes.y;
    a.Scatter([0.0, 1.0, 2.0], [0.0, 1.0, 0.0], None);
    var q := Plottables.Scatter([0.0, 1.0, 2.0], [0.0, 1.0, 0.0], Style(0));
    assert a.plottables == [q];
    a.AutoAxis(0.0, 0.0);
    assert b.axes.x == a.axes.x && b.axes.x.isValid;
    assert b.axes.y != a.axes.y && !b.axes.y.isValid;
    BoundsOfThree(0.0, 1.0, 2.0);
    SingleSeriesExtents(q);
    assert b.axes.x.Value() == Interval(0.0, 2.0);
  }

  /** A client: after ShareAxis then UnShareAxis, auto-scaling plot a no
      longer changes plot b's X range, though it starts from b's values. */
  method UnsharedAxisScenario(bands: Bands, xs: seq<real>, ys: seq<real>)
  {
    var a := new Plot(bands, 40.0);
    var b := new Plot(bands, 40.0);
    a.ShareAxis(b, null);
    a.UnShareAxis(true, false);
    assert a.axes.x != b.axes.x && a.axes.x.Value() == b.axes.x.Value();
    var seen := b.axes.x.Value();
    a.Scatter(xs, ys, None);
    a.AutoAxis(0.0, 0.0);
    assert b.axes.x.Value() == seen && !b.axes.x.isValid;
    assert a.axes.x.isValid;
  }

  /** A client: a second render into a different rectangle lays the plot
      out for that rectangle, not the first one. */
  method ResizeScenario(bands: Bands, first: Rect, second: Rect, measure: TickMeasure)
  {
    var p := new Plot(bands, 40.0);
    var relaidOut, drawn := p.RenderAligned(first, measure);
    assert p.layout.plotRect == first;
    relaidOut, drawn := p.RenderAligned(second, measure);
    assert p.layout.plotRect == second;
    assert p.layout.dataRect == DataRectOf(second, bands, p.layout.yScaleWidth);
    assert p.layout.yScaleWidth >= 40.0;
  }
}
