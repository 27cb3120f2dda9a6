/** The renderable series a plot owns. Only the scatter kind exists. */
module Plottables {
  import opened Extents

  /** Visual style of a series; of it the plot only ever chooses the colour
      index of the default palette. */
  datatype Style = Style(colorIndex: nat)

  /** A scatter series: X values, Y values and its style. */
  datatype Plottable = Scatter(xs: seq<real>, ys: seq<real>, style: Style) {
    /** The bounding box of the series' own points. */
    function GetDataArea(): (area: DataArea)
      ensures forall i :: 0 <= i < |xs| ==> area.x.Includes(xs[i])
      ensures forall i :: 0 <= i < |ys| ==> area.y.Includes(ys[i])
      ensures area.x.WellFormed() && area.y.WellFormed()
    {
      DataArea(Bounds(xs), Bounds(ys))
    }
  }
}
