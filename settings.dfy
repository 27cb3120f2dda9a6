/** The collaborators a plot owns: axis ranges, the axes pair, the layout
    and the tick collections. Their own source is not part of this model;
    each class here is a stand-in that keeps exactly the state the plot
    reads and writes, with the behaviour the plot relies on as its contract. */
module PlotSettings {
  import opened Extents

  datatype Option<T> = None | Some(value: T)

  /** The dimension a range object was created for. Ghost bookkeeping only:
      it keeps an X range and a Y range from ever being the same object. */
  datatype Dim = Horizontal | Vertical

  /** The edge of the data area a tick collection labels. */
  datatype Side = Left | Bottom | Right

  /** A pixel rectangle; pixel Y grows downwards, so top is above bottom. */
  datatype Rect = Rect(left: real, top: real, right: real, bottom: real)

  /** The fixed bands reserved around the data area. The Y scale band is
      not among them: its width is the one the plot can widen. */
  datatype Bands = Bands(titleHeight: real, xLabelHeight: real, xScaleHeight: real,
                         yLabelWidth: real, y2LabelWidth: real, y2ScaleWidth: real)

  /** The data rectangle left inside plotRect once every band is reserved
      from its edge: the Y label and Y scale on the left, the title on top,
      the Y2 label and Y2 scale on the right, the X label and X scale below. */
  function DataRectOf(plotRect: Rect, bands: Bands, yScaleWidth: real): Rect
  {
    Rect(plotRect.left + bands.yLabelWidth + yScaleWidth,
         plotRect.top + bands.titleHeight,
         plotRect.right - bands.y2LabelWidth - bands.y2ScaleWidth,
         plotRect.bottom - bands.xLabelHeight - bands.xScaleHeight)
  }

  /** The Y scale width after the widening step: wide enough for the widest
      Y tick label, never narrower than before, and changed only when the
      label did not fit. */
  function WidenedScaleWidth(current: real, widestLabel: real): (w: real)
    ensures current <= w && widestLabel <= w
    ensures w == current || w == widestLabel
    ensures w != current <==> widestLabel > current
  {
    if widestLabel > current then widestLabel else current
  }

  /** Text of a title or axis label. None stands for the label class's own
      default font size or weight. */
  datatype Label = Label(text: string, fontSize: Option<nat>, bold: Option<bool>)

  datatype SubplotPosition = SubplotPosition(rows: nat, columns: nat, index: nat)

  /** Measures the widest tick label a tick collection on the given side
      would produce for the range low..high over a data rectangle. Font
      measurement and the tick spacing search are outside the model. */
  type TickMeasure = (Side, real, real, Rect) -> real

  /** The visible range of one axis. */
  class Range {
    var low: real
    var high: real
    var isValid: bool
    ghost const dim: Dim

    function Value(): Interval
      reads this
    {
      Interval(low, high)
    }

    /** A range that has not been set yet. */
    constructor (ghost dim: Dim)
      ensures this.dim == dim && !isValid && Value() == Interval(0.0, 1.0)
    {
      low, high, isValid := 0.0, 1.0, false;
      this.dim := dim;
    }

    /** A fresh range holding the same values as source. */
    constructor Copy(source: Range)
      ensures dim == source.dim && Value() == source.Value() && isValid == source.isValid
    {
      low, high, isValid := source.low, source.high, source.isValid;
      dim := source.dim;
    }

    method Set(extent: Interval)
      modifies this
      ensures Value() == extent && isValid
    {
      low, high, isValid := extent.lo, extent.hi, true;
    }

    /** Widens a valid range to cover extent; on an unset range behaves like Set. */
    method Expand(extent: Interval)
      modifies this
      ensures isValid
      ensures Value() == if old(isValid) then Union(old(Value()), extent) else extent
    {
      if !isValid {
        Set(extent);
      } else {
        var u := Union(Value(), extent);
        low, high := u.lo, u.hi;
      }
    }

    method Zoom(frac: real)
      requires frac > 0.0
      modifies this
      ensures Value() == Zoomed(old(Value()), frac) && isValid == old(isValid)
    {
      var z := Zoomed(Value(), frac);
      low, high := z.lo, z.hi;
    }
  }

  /** The X and Y ranges of a plot and the pixel rectangle they map onto.
      The two range fields are references: plots share an axis by pointing
      at the same range object. */
  class Axes {
    var x: Range
    var y: Range
    var dataRect: Rect

    ghost predicate Valid()
      reads this
    {
      x.dim == Horizontal && y.dim == Vertical
    }

    constructor ()
      ensures Valid() && fresh(x) && fresh(y)
      ensures !x.isValid && !y.isValid
      ensures x.Value() == Interval(0.0, 1.0) && y.Value() == Interval(0.0, 1.0)
      ensures dataRect == Rect(0.0, 0.0, 0.0, 0.0)
    {
      x := new Range(Horizontal);
      y := new Range(Vertical);
      dataRect := Rect(0.0, 0.0, 0.0, 0.0);
    }

    /** Fresh ranges with the values of source's ranges. */
    constructor Copy(source: Axes)
      requires source.Valid()
      ensures Valid() && fresh(x) && fresh(y)
      ensures x.Value() == source.x.Value() && x.isValid == source.x.isValid
      ensures y.Value() == source.y.Value() && y.isValid == source.y.isValid
      ensures dataRect == source.dataRect
    {
      x := new Range.Copy(source.x);
      y := new Range.Copy(source.y);
      dataRect := source.dataRect;
    }

    method Set(area: DataArea)
      requires Valid()
      modifies x, y
      ensures x.Value() == area.x && y.Value() == area.y
      ensures x.isValid && y.isValid
    {
      x.Set(area.x);
      y.Set(area.y);
    }

    method Expand(area: DataArea)
      requires Valid()
      modifies x, y
      ensures x.isValid && y.isValid
      ensures x.Value() == if old(x.isValid) then Union(old(x.Value()), area.x) else area.x
      ensures y.Value() == if old(y.isValid) then Union(old(y.Value()), area.y) else area.y
    {
      x.Expand(area.x);
      y.Expand(area.y);
    }

    method Zoom(fracX: real, fracY: real)
      requires Valid() && fracX > 0.0 && fracY > 0.0
      modifies x, y
      ensures x.Value() == Zoomed(old(x.Value()), fracX) && x.isValid == old(x.isValid)
      ensures y.Value() == Zoomed(old(y.Value()), fracY) && y.isValid == old(y.isValid)
    {
      x.Zoom(fracX);
      y.Zoom(fracY);
    }

    method SetDataRect(rect: Rect)
      modifies this`dataRect
      ensures dataRect == rect
    {
      dataRect := rect;
    }
  }

  /** The plot-level layout: the band sizes, the widenable Y scale width and
      the rectangles computed by the last Update. */
  class Layout {
    const bands: Bands
    var yScaleWidth: real
    var plotRect: Rect
    var dataRect: Rect

    constructor (bands: Bands, yScaleWidth: real)
      ensures this.bands == bands && this.yScaleWidth == yScaleWidth
      ensures plotRect == Rect(0.0, 0.0, 0.0, 0.0) && dataRect == plotRect
    {
      this.bands := bands;
      this.yScaleWidth := yScaleWidth;
      plotRect := Rect(0.0, 0.0, 0.0, 0.0);
      dataRect := plotRect;
    }

    /** Recomputes the layout from plotRect and the current band sizes alone;
      nothing from an earlier update is kept. */
    method Update(plotRect: Rect)
      modifies this`plotRect, this`dataRect
      ensures this.plotRect == plotRect
      ensures dataRect == DataRectOf(plotRect, bands, yScaleWidth)
    {
      this.plotRect := plotRect;
      dataRect := DataRectOf(plotRect, bands, yScaleWidth);
    }
  }

  /** The ticks of one side of the data area; of them the plot reads only
      the width of the widest label. */
  class TickCollection {
    const side: Side
    var biggestTickLabelWidth: real

    constructor (side: Side)
      ensures this.side == side && biggestTickLabelWidth == 0.0
    {
      this.side := side;
      biggestTickLabelWidth := 0.0;
    }

    method FindBestTickDensity(low: real, high: real, dataRect: Rect, measure: TickMeasure)
      modifies this
      ensures biggestTickLabelWidth == measure(side, low, high, dataRect)
    {
      biggestTickLabelWidth := measure(side, low, high, dataRect);
    }
  }
}
