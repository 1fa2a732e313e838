/** The chart's data model: points, lines and their optional configuration
    blocks, as the line component receives them. */
module ChartTypes {
  import opened JsValues

  /** One sample of a series; `y2` is present only on a ranged series (a band
      between `y` and `y2`). */
  datatype DataPoint = DataPoint(x: real, y: real, y2: Option<real>)

  /** A line's stroke colour: one colour, or an array of colours that form a
      gradient. `ref` stands for the identity of the array object, which is
      what JavaScript's `===` compares for arrays. */
  datatype LineColor = Solid(color: string) | Gradient(ref: nat, colors: seq<string>)

  /** A leading or trailing fade: a bare opacity number, or an object with an
      opacity and an optional leading/trailing percentage. */
  datatype Fade = Level(opacity: real) | Described(opacity: real, percentage: Option<real>)

  /** The optional `activePointConfig` block of a line. */
  datatype ActivePointConfig = ActivePointConfig(
    color: Option<string>,
    borderColor: Option<string>,
    borderWidth: Option<real>,
    radius: Option<real>,
    showVerticalLine: Option<bool>,
    showActivePointCircle: Option<bool>,
    verticalLineColor: Option<string>,
    verticalLineWidth: Option<real>,
    verticalLineDashArray: Option<seq<real>>,
    verticalLineOpacity: Option<real>,
    animateTransition: Option<bool>)

  /** The optional `endPointConfig` block of a line. */
  datatype EndPointConfig = EndPointConfig(color: Option<string>, animated: Option<bool>, radius: Option<real>)

  /** A line as the chart receives it. */
  datatype Line = Line(
    data: Option<seq<DataPoint>>,
    lineColor: LineColor,
    lineWidth: Option<real>,
    curve: Option<string>,
    key: Option<string>,
    isAreaChart: Option<bool>,
    leadingOpacity: Option<Fade>,
    trailingOpacity: Option<Fade>,
    activePointConfig: Option<ActivePointConfig>,
    endPointConfig: Option<EndPointConfig>)

  /** The axis bounds computed for the whole chart. */
  datatype AxisMinMax = AxisMinMax(minX: real, maxX: real, minY: real, maxY: real)

  /** `line?.data || []`: an array is always truthy, so only a missing series becomes empty. */
  function DataOf(line: Line): seq<DataPoint> {
    line.data.GetOr([])
  }

  /** A line is ranged when its first point carries `y2`. */
  predicate IsRanged(data: seq<DataPoint>) {
    |data| > 0 && data[0].y2.Some?
  }
}

/** The default values the chart falls back to (src/defaults.tsx). */
module Defaults {
  const ActivePointColor: string := "black"
  const ActivePointBorderColor: string := "black"
  const ActivePointBorderWidth: real := 2.0
  const ActivePointRadius: real := 4.0
  const ShowVerticalLine: bool := false
  const ShowActivePointCircle: bool := true
  const VerticalLineColor: string := "gray"
  const VerticalLineOpacity: real := 1.0
  const VerticalLineWidth: real := 1.0
  const VerticalLineDashArray: seq<real> := [0.0]
  const AnimateTransition: bool := false

  const EndPointColor: string := "black"
  const EndPointAnimated: bool := false
  const EndPointRadius: real := 4.0

  const EndSpacing: real := 20.0
}
