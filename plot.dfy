/** The plot orchestrator: an ordered list of plottables, the axes it
    scales automatically or shares with other plots, and the control flow
    of rendering (layout, auto-scaling, Y scale widening, drawing order). */
module QuickPlot {
  import opened Extents
  import opened PlotSettings
  import opened Plottables

  /** The margin AutoAxis uses when Render calls it without arguments. */
  const DefaultMargin: real := 0.1

  /** The X values of each plottable, in list order. */
  function XSeries(ps: seq<Plottable>): (s: seq<seq<real>>)
    ensures |s| == |ps|
  {
    seq(|ps|, k requires 0 <= k < |ps| => ps[k].xs)
  }

  /** The Y values of each plottable, in list order. */
  function YSeries(ps: seq<Plottable>): (s: seq<seq<real>>)
    ensures |s| == |ps|
  {
    seq(|ps|, k requires 0 <= k < |ps| => ps[k].ys)
  }

  class Plot {
    var subplotPosition: SubplotPosition
    var plottables: seq<Plottable>
    const layout: Layout
    const axes: Axes
    var title: Label
    var yLabel: Label
    var xLabel: Label
    var y2Label: Label
    var yTicks: TickCollection
    var xTicks: TickCollection
    var y2Ticks: TickCollection

    /** The axes keep an X range and a distinct Y range, and each tick
        collection labels its own side (so the three are distinct objects). */
    ghost predicate Valid()
      reads this, axes
    {
      axes.Valid() && yTicks.side == Left && xTicks.side == Bottom && y2Ticks.side == Right
    }

    /** A plot with default labels, no plottables and unset axes. The band
        sizes and the initial Y scale width are the layout's defaults. */
    constructor (bands: Bands, yScaleWidth: real)
      ensures Valid() && plottables == []
      ensures fresh(layout) && fresh(axes) && fresh(axes.x) && fresh(axes.y)
      ensures fresh(yTicks) && fresh(xTicks) && fresh(y2Ticks)
      ensures !axes.x.isValid && !axes.y.isValid
      ensures layout.bands == bands && layout.yScaleWidth == yScaleWidth
      ensures subplotPosition == SubplotPosition(1, 1, 1)
      ensures title == Label("Title", Some(16), Some(true))
      ensures yLabel == Label("Vertical Label", None, None)
      ensures xLabel == Label("Horzontal Label", None, None)
      ensures y2Label == Label("", None, None)
    {
      subplotPosition := SubplotPosition(1, 1, 1);
      plottables := [];
      layout := new Layout(bands, yScaleWidth);
      axes := new Axes();
      title := Label("Title", Some(16), Some(true));
      yLabel := Label("Vertical Label", None, None);
      xLabel := Label("Horzontal Label", None, None);
      y2Label := Label("", None, None);
      yTicks := new TickCollection(Left);
      xTicks := new TickCollection(Bottom);
      y2Ticks := new TickCollection(Right);
    }

    /** Appends one scatter series. Without a style, its colour index is the
        number of plottables before the call, so each default series gets
        the next palette colour. Nothing but the plottable list changes. */
    method Scatter(xs: seq<real>, ys: seq<real>, style: Option<Style>)
      modifies this`plottables
      ensures Valid() == old(Valid())
      ensures |plottables| == |old(plottables)| + 1
      ensures plottables[..|old(plottables)|] == old(plottables)
      ensures plottables[|old(plottables)|].xs == xs && plottables[|old(plottables)|].ys == ys
      ensures plottables[|old(plottables)|].style
                == if style.None? then Style(|old(plottables)|) else style.value
    {
      var s := if style.None? then Style(|plottables|) else style.value;
      plottables := plottables + [Plottables.Scatter(xs, ys, s)];
    }

    /** Removes every plottable; the axes, layout, labels and ticks keep their state. */
    method Clear()
      modifies this`plottables
      ensures Valid() == old(Valid())
      ensures plottables == []
    {
      plottables := [];
    }

    /** Sets the axes to the first plottable's extent, expands them by every
        later extent in list order, then zooms out by the margins. With no
        plottables the ranges are not reset, only zoomed. */
    method AutoAxis(marginX: real, marginY: real)
      requires Valid()
      requires marginX < 1.0 && marginY < 1.0
      modifies axes.x, axes.y
      ensures Valid()
      ensures axes.x.Value() == AutoRange(ExtentsOf(XSeries(plottables)), old(axes.x.Value()), marginX)
      ensures axes.y.Value() == AutoRange(ExtentsOf(YSeries(plottables)), old(axes.y.Value()), marginY)
      ensures axes.x.isValid == (old(axes.x.isValid) || plottables != [])
      ensures axes.y.isValid == (old(axes.y.isValid) || plottables != [])
    {
      if |plottables| > 0 {
        FitToPlottables();
      }
      axes.Zoom(1.0 - marginX, 1.0 - marginY);
    }

    /** The fold at the heart of AutoAxis: Set on the first plottable's
        extent, then Expand on each later one in list order. The ranges end
        as the union of all extents. */
    method FitToPlottables()
      requires Valid() && plottables != []
      modifies axes.x, axes.y
      ensures axes.x.Value() == Fold(ExtentsOf(XSeries(plottables)))
      ensures axes.y.Value() == Fold(ExtentsOf(YSeries(plottables)))
      ensures axes.x.isValid && axes.y.isValid
    {
      ghost var xe, ye := ExtentsOf(XSeries(plottables)), ExtentsOf(YSeries(plottables));
      axes.Set(plottables[0].GetDataArea());
      FoldFirst(xe);
      FoldFirst(ye);
      var i := 1;
      while i < |plottables|
        invariant 1 <= i <= |plottables|
        invariant axes.x.Value() == Fold(xe[..i]) && axes.y.Value() == Fold(ye[..i])
        invariant axes.x.isValid && axes.y.isValid
      {
        axes.Expand(plottables[i].GetDataArea());
        FoldStep(xe, i);
        FoldStep(ye, i);
        i := i + 1;
      }
      assert xe[..i] == xe && ye[..i] == ye;
    }

    /** Makes this plot's X range the very object of sharex's X range, and
        its Y range that of sharey's; a missing plot leaves that range alone. */
    method ShareAxis(sharex: Plot?, sharey: Plot?)
      requires Valid()
      requires sharex != null ==> sharex.Valid()
      requires sharey != null ==> sharey.Valid()
      modifies axes
      ensures Valid()
      ensures axes.x == if sharex != null then old(sharex.axes.x) else old(axes.x)
      ensures axes.y == if sharey != null then old(sharey.axes.y) else old(axes.y)
      ensures axes.dataRect == old(axes.dataRect)
    {
      if sharex != null {
        axes.x := sharex.axes.x;
      }
      if sharey != null {
        axes.y := sharey.axes.y;
      }
    }

    /** Gives each selected dimension a fresh range holding the same values,
        so that it no longer aliases any other plot's range; an unselected
        dimension keeps its range object. */
    method UnShareAxis(unshareX: bool, unshareY: bool)
      requires Valid()
      modifies axes
      ensures Valid()
      ensures unshareX ==> fresh(axes.x) && axes.x.Value() == old(axes.x.Value())
                           && axes.x.isValid == old(axes.x.isValid)
      ensures !unshareX ==> axes.x == old(axes.x)
      ensures unshareY ==> fresh(axes.y) && axes.y.Value() == old(axes.y.Value())
                           && axes.y.isValid == old(axes.y.isValid)
      ensures !unshareY ==> axes.y == old(axes.y)
      ensures axes.dataRect == old(axes.dataRect)
    {
      var axesCopy := new Axes.Copy(axes);
      if unshareX {
        axes.x := axesCopy.x;
      }
      if unshareY {
        axes.y := axesCopy.y;
      }
    }

    /** What the layout, axes and ticks look like after the non-drawing part
        of a render into plotRect:
        - the axes were auto-scaled (default margins) exactly when one of
          them was unset at the start;
        - both tick collections measured the axes' final ranges over the data
          rectangle of the first layout pass;
        - the Y scale width was widened to the widest Y tick label exactly
          when that label did not fit (relaidOut), and the layout was then
          recomputed;
        - the layout describes plotRect, never an earlier rectangle. */
    twostate predicate FramePrepared(plotRect: Rect, measure: TickMeasure, relaidOut: bool)
      reads this, layout, axes, axes.x, axes.y, yTicks, xTicks
    {
      var autoScaled := !old(axes.x.isValid) || !old(axes.y.isValid);
      var firstRect := DataRectOf(plotRect, layout.bands, old(layout.yScaleWidth));
      && axes.x.Value() == (if autoScaled
                             then AutoRange(ExtentsOf(XSeries(plottables)), old(axes.x.Value()), DefaultMargin)
                             else old(axes.x.Value()))
      && axes.y.Value() == (if autoScaled
                             then AutoRange(ExtentsOf(YSeries(plottables)), old(axes.y.Value()), DefaultMargin)
                             else old(axes.y.Value()))
      && axes.x.isValid == (old(axes.x.isValid) || (autoScaled && plottables != []))
      && axes.y.isValid == (old(axes.y.isValid) || (autoScaled && plottables != []))
      && yTicks.biggestTickLabelWidth == measure(Left, axes.y.low, axes.y.high, firstRect)
      && xTicks.biggestTickLabelWidth == measure(Bottom, axes.x.low, axes.x.high, firstRect)
      && relaidOut == (yTicks.biggestTickLabelWidth > old(layout.yScaleWidth))
      && layout.yScaleWidth == WidenedScaleWidth(old(layout.yScaleWidth), yTicks.biggestTickLabelWidth)
      && layout.plotRect == plotRect
      && layout.dataRect == DataRectOf(plotRect, layout.bands, layout.yScaleWidth)
    }

    /** The non-drawing steps of Render, as written: update the layout,
        auto-scale an unset axis, hand the data rectangle to the axes, find
        the ticks, and widen the Y scale and lay out again when needed. The
        axes keep the data rectangle of the first layout pass. */
    method PrepareFrame(plotRect: Rect, measure: TickMeasure) returns (relaidOut: bool)
      requires Valid()
      modifies layout`yScaleWidth, layout`plotRect, layout`dataRect, axes`dataRect
      modifies axes.x, axes.y, yTicks, xTicks
      ensures Valid()
      ensures FramePrepared(plotRect, measure, relaidOut)
      ensures axes.dataRect == DataRectOf(plotRect, layout.bands, old(layout.yScaleWidth))
    {
      layout.Update(plotRect);
      if !axes.x.isValid || !axes.y.isValid {
        AutoAxis(DefaultMargin, DefaultMargin);
      }
      axes.SetDataRect(layout.dataRect);
      yTicks.FindBestTickDensity(axes.y.low, axes.y.high, layout.dataRect, measure);
      xTicks.FindBestTickDensity(axes.x.low, axes.x.high, layout.dataRect, measure);
      relaidOut := yTicks.biggestTickLabelWidth > layout.yScaleWidth;
      if relaidOut {
        layout.yScaleWidth := yTicks.biggestTickLabelWidth;
        layout.Update(plotRect);
      }
    }

    /** The plottables in the order they are rendered: list order, so a
        later plottable is drawn on top of an earlier one. */
    method DrawPlottables() returns (drawn: seq<Plottable>)
      ensures drawn == plottables
    {
      drawn := [];
      for i := 0 to |plottables|
        invariant drawn == plottables[..i]
      {
        drawn := drawn + [plottables[i]];
      }
    }

    /** Render as written. When the Y scale is widened, the axes still map
        onto the data rectangle of the first layout pass, which is no longer
        the layout's data rectangle. */
    method Render(plotRect: Rect, measure: TickMeasure) returns (relaidOut: bool, drawn: seq<Plottable>)
      requires Valid()
      modifies layout`yScaleWidth, layout`plotRect, layout`dataRect, axes`dataRect
      modifies axes.x, axes.y, yTicks, xTicks
      ensures Valid()
      ensures FramePrepared(plotRect, measure, relaidOut)
      ensures axes.dataRect == DataRectOf(plotRect, layout.bands, old(layout.yScaleWidth))
      ensures relaidOut ==> axes.dataRect != layout.dataRect
      ensures drawn == plottables
    {
      relaidOut := PrepareFrame(plotRect, measure);
      drawn := DrawPlottables();
    }

    /** Render with the axes told the final data rectangle: after a second
        layout pass the axes are updated again before anything is drawn. */
    method RenderAligned(plotRect: Rect, measure: TickMeasure) returns (relaidOut: bool, drawn: seq<Plottable>)
      requires Valid()
      modifies layout`yScaleWidth, layout`plotRect, layout`dataRect, axes`dataRect
      modifies axes.x, axes.y, yTicks, xTicks
      ensures Valid()
      ensures FramePrepared(plotRect, measure, relaidOut)
      ensures axes.dataRect == layout.dataRect
      ensures drawn == plottables
    {
      relaidOut := PrepareFrame(plotRect, measure);
      if relaidOut {
        axes.SetDataRect(layout.dataRect);
      }
      drawn := DrawPlottables();
    }
  }

  /** After AutoAxis with margins in [0, 1) on a non-empty plot, every point
      of every plottable lies inside the X and Y ranges. */
  lemma AutoAxisCoversEveryPoint(ps: seq<Plottable>, currentX: Interval, currentY: Interval,
                                 marginX: real, marginY: real, k: nat, j: nat)
    requires 0.0 <= marginX < 1.0 && 0.0 <= marginY < 1.0
    requires k < |ps| && j < |ps[k].xs| && j < |ps[k].ys|
    ensures AutoRange(ExtentsOf(XSeries(ps)), currentX, marginX).Includes(ps[k].xs[j])
    ensures AutoRange(ExtentsOf(YSeries(ps)), currentY, marginY).Includes(ps[k].ys[j])
  {
    assert XSeries(ps)[k] == ps[k].xs && YSeries(ps)[k] == ps[k].ys;
    AutoRangeCoversPoints(XSeries(ps), currentX, marginX, k, j);
    AutoRangeCoversPoints(YSeries(ps), currentY, marginY, k, j);
  }

  /** The automatic ranges do not depend on the order in which the
      plottables were added, nor on a plottable added twice. */
  lemma AutoAxisIgnoresOrder(ps: seq<Plottable>, qs: seq<Plottable>, current: Interval, margin: real)
    requires margin < 1.0
    requires forall p :: p in ps <==> p in qs
    ensures AutoRange(ExtentsOf(XSeries(ps)), current, margin) == AutoRange(ExtentsOf(XSeries(qs)), current, margin)
    ensures AutoRange(ExtentsOf(YSeries(ps)), current, margin) == AutoRange(ExtentsOf(YSeries(qs)), current, margin)
  {
    if ps != [] { assert ps[0] in qs; }
    if qs != [] { assert qs[0] in ps; }
    if ps != [] {
      var xp, xq := ExtentsOf(XSeries(ps)), ExtentsOf(XSeries(qs));
      var yp, yq := ExtentsOf(YSeries(ps)), ExtentsOf(YSeries(qs));
      SameMembersSameExtents(ps, qs);
      SameMembersSameExtents(qs, ps);
      FoldDependsOnlyOnMembers(xp, xq);
      FoldDependsOnlyOnMembers(yp, yq);
    }
  }

  /** Helper: every extent of a plottable of ps is an extent of a plottable of qs. */
  lemma SameMembersSameExtents(ps: seq<Plottable>, qs: seq<Plottable>)
    requires forall p :: p in ps ==> p in qs
    ensures forall a :: a in ExtentsOf(XSeries(ps)) ==> a in ExtentsOf(XSeries(qs))
    ensures forall a :: a in ExtentsOf(YSeries(ps)) ==> a in ExtentsOf(YSeries(qs))
  {
    var xp, xq := ExtentsOf(XSeries(ps)), ExtentsOf(XSeries(qs));
    var yp, yq := ExtentsOf(YSeries(ps)), ExtentsOf(YSeries(qs));
    forall a | a in xp ensures a in xq {
      var k :| 0 <= k < |xp| && xp[k] == a;
      assert ps[k] in qs;
      var m :| 0 <= m < |qs| && qs[m] == ps[k];
      assert xq[m] == Bounds(qs[m].xs);
    }
    forall a | a in yp ensures a in yq {
      var k :| 0 <= k < |yp| && yp[k] == a;
      assert ps[k] in qs;
      var m :| 0 <= m < |qs| && qs[m] == ps[k];
      assert yq[m] == Bounds(qs[m].ys);
    }
  }
}
