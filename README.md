# QuickPlot plot orchestrator, modelled in Dafny

This project models the `Plot` class of QuickPlot, a 2D chart-plotting
engine. A plot owns four things:

- an ordered list of plottables (scatter series), to which `Scatter`
  appends and which `Clear` empties;
- a pair of axis ranges. `AutoAxis` fits them to the data: `Set` on the
  first plottable's extent, `Expand` on every later one, then a margin
  `Zoom`. `ShareAxis` makes one plot's X or Y range the very object of
  another plot's. `UnShareAxis` replaces it with a fresh copy;
- a layout, whose Y scale band `Render` widens when the widest Y tick
  label does not fit;
- tick collections for three sides.

The plot is imperative and so is the model. `Plot`, `Axes`, `Range`,
`Layout` and `TickCollection` are Dafny classes. Their methods say in
`modifies` clauses what they may change. Range sharing is real reference
aliasing between objects.

Modules:

- `Extents` (extents.dfy): intervals. It holds the union that `Expand`
  computes, the margin zoom, the bounding interval of a data series, and
  `Fold`: the range reached by `Set` and then `Expand` over a list of
  extents. The lemmas here carry the proofs: the fold covers every
  extent, each of its bounds is attained, and it does not depend on
  order. The auto-scaled range contains every data point, strictly
  inside when the margin is positive and the data spans an interval.
- `PlotSettings` (settings.dfy): the collaborator classes. Their source
  is not part of this model, so each is a stand-in. It keeps the state
  the plot reads and writes, and its contract is what the plot relies on.
- `Plottables` (plottables.dfy): the scatter series and its style.
- `QuickPlot` (plot.dfy): the `Plot` class and lemmas about auto-scaling.
- `Scenarios` (scenarios.dfy): client methods whose outcomes follow from
  the contracts alone. They cover auto-scaling x = 0, 1, 2 / y = 0, 1, 0
  with no margin to [0, 2] × [0, 1], sharing and unsharing an X range
  between two plots, and rendering into two rectangles in turn.

Choices where the model follows the code:

- `Plot.Scatter` does not check that `xs` and `ys` have the same length,
  so the model does not either.
- `Render` tells the axes the data rectangle of the first layout pass,
  not the final one (see Findings).
- The layout is widened at most once per render. There is no bounded
  multi-pass loop.
- `AutoAxis` zooms by `1 - margin` to make room around the data. So a
  zoom fraction below one zooms out: the span is divided by the
  fraction.

## Model

| member | source | states |
|---|---|---|
| QuickPlot.Plot.constructor | src/QuickPlot/Plot.cs:11-28 | A new plot has no plottables and two distinct, unset ranges. It has the default title ("Title", size 16, bold), the default axis labels including the source's "Horzontal Label", and one tick collection per side. |
| QuickPlot.Plot.Scatter | src/QuickPlot/Plot.cs:32-38 | Appends exactly one plottable holding xs and ys at the end. Earlier plottables keep their order. With no style, the colour index is the list length before the call. The frame lets nothing but the list change. |
| QuickPlot.Plot.Clear | src/QuickPlot/Plot.cs:40-43 | The list becomes empty. Its frame leaves axes, layout, labels and ticks untouched. |
| QuickPlot.Plot.AutoAxis | src/QuickPlot/Plot.cs:49-59 | Each range becomes the union of all plottables' extents, zoomed out by the margin. With no plottables the old range is only zoomed, not reset. A range becomes valid exactly when it was valid already or there is data. |
| QuickPlot.Plot.FitToPlottables | src/QuickPlot/Plot.cs:51-56 | Set on the first extent, then Expand on each later one in list order (loop invariant over the prefix), leaves each range equal to the fold of all extents, and both valid. |
| QuickPlot.Plot.ShareAxis | src/QuickPlot/Plot.cs:61-68 | The X range becomes the very object of sharex's X range, and likewise for Y. A null argument leaves that reference alone. Later writes through either plot are seen by both. |
| QuickPlot.Plot.UnShareAxis | src/QuickPlot/Plot.cs:70-77 | Each selected range becomes a fresh object with the same bounds and validity, so it aliases no other plot's range. An unselected range keeps its object. |
| QuickPlot.Plot.PrepareFrame | src/QuickPlot/Plot.cs:84-101 | The layout describes this call's rectangle. The axes are auto-scaled exactly when one was unset. Ticks are measured on the final ranges. The Y scale width becomes at least the widest Y tick label and never shrinks. The layout is recomputed exactly when widening happened. |
| QuickPlot.Plot.DrawPlottables | src/QuickPlot/Plot.cs:115-116 | Plottables are rendered once each, in list order, so later ones are drawn on top. |
| QuickPlot.Plot.Render | src/QuickPlot/Plot.cs:83-122 | As written: everything PrepareFrame states, plus list-order drawing. The axes keep the first pass's data rectangle, which differs from the layout's whenever widening happened. |
| QuickPlot.Plot.RenderAligned | src/QuickPlot/Plot.cs:83-122 | Corrected render: the same as Render, except that the axes map onto the layout's final data rectangle. |
| QuickPlot.AutoAxisCoversEveryPoint | src/QuickPlot/Plot.cs:49-59 | With margins in [0, 1), every point of every plottable lies inside the X and Y ranges AutoAxis produces. |
| QuickPlot.AutoAxisIgnoresOrder | src/QuickPlot/Plot.cs:51-56 | The ranges AutoAxis produces depend only on which plottables are present, not on their order or repetition. |
| Extents.Fold | src/QuickPlot/Plot.cs:51-56 | The Set-then-Expand fold covers every extent, each of its bounds is some extent's bound (it is the tightest cover), and it is well formed when the extents are. |
| Extents.FoldDependsOnlyOnMembers | src/QuickPlot/Plot.cs:53-55 | Two lists of extents with the same members fold to the same range, so Expand is commutative and associative. |
| Extents.FoldCoversSeries | src/QuickPlot/Plot.cs:51-56 | Every data value of every series lies in the fold of the series' extents. |
| Extents.AutoRangeCoversPoints | src/QuickPlot/Plot.cs:49-59 | With a margin in [0, 1), every data value lies in the auto-scaled range. |
| Extents.AutoRangeStrictlyInside | src/QuickPlot/Plot.cs:49-59 | With a margin in (0, 1) and data not collapsed to one value (no minimum-span clamp; see Left out), every data value lies strictly inside the auto-scaled range. |
| Extents.Union | src/QuickPlot/Plot.cs:55 | Expand on a valid range gives the smallest interval covering both: it contains each, and each of its bounds comes from one of them. |
| Extents.Zoomed | src/QuickPlot/Plot.cs:58 | Zoom keeps the centre of the range and divides its span by the fraction. |
| Extents.ZoomOutContains | src/QuickPlot/Plot.cs:58 | Zooming out by 1 - margin (margin in [0, 1)) keeps the whole old range. |
| Extents.ZoomOutStrict | src/QuickPlot/Plot.cs:58 | Zooming out by a fraction below one puts a non-degenerate range strictly inside the result. |
| Extents.ZoomByOne | src/QuickPlot/Plot.cs:58 | A zero margin leaves the range unchanged. |
| Extents.Bounds | src/QuickPlot/Plot.cs:53 | The extent of one series holds every value, and both of its ends are values of the series. |
| Plottables.Plottable.GetDataArea | src/QuickPlot/Plot.cs:53-55 | A plottable's data area holds every one of its X values in its X interval and every Y value in its Y interval. |
| PlotSettings.WidenedScaleWidth | src/QuickPlot/Plot.cs:96-99 | The widened Y scale width is at least the old width and at least the widest label. It changes exactly when the label was wider. |
| PlotSettings.Axes.Set | src/QuickPlot/Plot.cs:53 | Both ranges take the given area's intervals and become valid. |
| PlotSettings.Axes.Expand | src/QuickPlot/Plot.cs:55 | A valid range becomes the union with the area's interval. An unset range behaves like Set. Both become valid. |
| PlotSettings.Axes.Zoom | src/QuickPlot/Plot.cs:58 | Each range is zoomed by its own fraction. Validity is unchanged. |
| PlotSettings.Axes.Copy | src/QuickPlot/Plot.cs:72 | The copy holds fresh range objects with the source's bounds and validity. |
| PlotSettings.Axes.SetDataRect | src/QuickPlot/Plot.cs:91 | The axes record the data rectangle they map onto. |
| PlotSettings.Layout.Update | src/QuickPlot/Plot.cs:86 | The layout is recomputed from the given rectangle and the current band sizes alone. |
| PlotSettings.TickCollection.FindBestTickDensity | src/QuickPlot/Plot.cs:94-95 | The widest tick label is the measurement for the given side, range and data rectangle. |

## Left out

- Drawing is not modelled: the white fill, tick rendering, clipping, save and restore, `RenderLabels` and `RenderLayoutDebug` (Plot.cs:103-121, 124-206). These are SkiaSharp calls with no state the plot reads back. Only the order in which plottables are handed to the canvas is kept (`DrawPlottables`).
- `Debug.WriteLine` (Plot.cs:98) is logging only.
- The tick spacing search and font measurement inside `TickCollection.FindBestTickDensity` are not modelled. The width of the widest label comes from the `measure` function parameter.
- `PlotSettings.Layout.Update`: the source of `Layout` is not part of this model. The data rectangle is a stand-in: bands reserved from each edge of the plot rectangle. The title, label and scale sub-rectangles and any minimum-size clamping are not modelled.
- `PlotSettings.Axes.Zoom` and `PlotSettings.Range.Zoom`: the source of `Axes` is not part of this model. The stand-in divides the span by the fraction about the centre, which is defined only for positive fractions.
- `QuickPlot.Plot.AutoAxis` requires both margins to be below 1, because the zoom stand-in needs a positive fraction. The source accepts any double.
- `QuickPlot.Plot.constructor` takes the layout's band sizes and initial Y scale width as parameters, because the defaults of `Layout` are not part of this model. Label font size and weight that the source leaves at the class default are `None`.
- `PlotSettings.Range`: the initial bounds of a fresh range are not part of this model; the stand-in starts at [0, 1], unset.
- `Extents.AutoRangeStrictlyInside`: the zoom stand-in has no minimum-span clamp for a zero-span range (the source of the range and axes classes is not part of this model), so a range collapsed to one value stays collapsed. Strictness is therefore proved only for data that spans an interval (lowest value below highest).
- `QuickPlot.Plot.Scatter`: the source hands the caller's `double[]` arrays to the new plottable by reference, and their extent is read only later, when `AutoAxis` runs. The model stores a copy (`seq<real>`) taken at the call, so a caller that rewrites its arrays in place after `Scatter` is not modelled.
- `Extents.Bounds` gives [0, 0] for an empty series. The source of the scatter plottable's `GetDataArea` is not part of this model, and its behaviour on empty arrays is unknown.
- Data values are `real`, not IEEE-754 doubles. NaN, infinities and rounding are not modelled.
- `Style` keeps only the colour index. Markers, line widths and palettes are not modelled.
- `subplotPosition` is stored but never read by the plot.
- Null `xs`/`ys` arrays and C# default argument values are not modelled. Callers pass every argument; `Render` passes the default margin 0.1 to `AutoAxis`.
- Mouse interaction, pixel pan/zoom and the data-to-pixel mapping belong to other classes and are outside this model.
- demos/WinFormsDemos/FormMultiY.cs is UI glue that feeds two series to `Scatter`.

## Findings

| source | as written | input that shows it | evidently intended | confidence | as-written member | corrected member |
|---|---|---|---|---|---|---|
| src/QuickPlot/Plot.cs:91-101 | `axes.SetDataRect(layout.dataRect)` runs before the Y scale is widened and the layout recomputed. So the axes keep mapping onto the first pass's data rectangle, which still includes the strip just given to the Y scale. | Any render whose widest Y tick label is wider than `layout.yScaleWidth`, e.g. a Y scale width of 40 and a 55-pixel label: the layout's data rectangle starts 15 pixels further right than the axes'. | After a second layout pass the axes map onto the final data rectangle, so plottables and the clip rectangle stay clear of the widened scale band. | medium; not executed | QuickPlot.Plot.Render (its ensures prove that widening leaves the axes' rectangle different from the layout's) | QuickPlot.Plot.RenderAligned |
