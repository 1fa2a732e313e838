/** How one line component resolves its configuration into what it draws:
    the active point's colour and props, the end point's props, the path
    arguments, stroke and fill, and the gradient's anchor positions
    (src/SvgPath.tsx, LineComponent). */
module LineConfig {
  import opened JsValues
  import opened ChartTypes
  import Defaults

  /** `getActivePointColor`: a truthy configured colour wins; otherwise a
      solid line colour; a gradient line falls back to black. */
  function ActivePointColor(config: Option<ActivePointConfig>, lineColor: LineColor): (color: string)
    ensures config.Some? && TruthyString(config.value.color) ==> color == config.value.color.value
    ensures !(config.Some? && TruthyString(config.value.color)) ==>
              color == if lineColor.Solid? then lineColor.color else Defaults.ActivePointColor
  {
    if config.Some? && TruthyString(config.value.color) then config.value.color.value
    else if lineColor.Solid? then lineColor.color
    else Defaults.ActivePointColor
  }

  /** The active point's colour is never empty unless the line's own solid
      colour is the empty string and nothing is configured. */
  lemma ActivePointColorNonEmpty(config: Option<ActivePointConfig>, lineColor: LineColor)
    requires lineColor.Solid? ==> lineColor.color != ""
    ensures ActivePointColor(config, lineColor) != ""
  {
  }

  /** The props handed to the ActivePoint element once every field is resolved. */
  datatype ActivePointProps = ActivePointProps(
    color: string,
    borderColor: string,
    borderWidth: real,
    radius: real,
    showVerticalLine: bool,
    showActivePointCircle: bool,
    verticalLineColor: string,
    verticalLineWidth: real,
    verticalLineDashArray: seq<real>,
    verticalLineOpacity: real,
    animateTransition: bool)

  /** Field-by-field defaulting of the ActivePoint props, with each field's own
      rule: `borderWidth` is kept when defined and not negative; the flags are
      kept whenever defined; the colours, `radius`, `verticalLineWidth`,
      `verticalLineOpacity` and the dash array go through `||`, so a 0 or an
      empty colour falls back to the default (an array, even an empty one, is
      truthy and is kept). */
  function ResolveActivePoint(config: ActivePointConfig, color: string): (props: ActivePointProps)
    ensures props.color == color
    // `||` fields: the configured value when truthy, the default otherwise.
    ensures props.borderColor
         == if TruthyString(config.borderColor) then config.borderColor.value else Defaults.ActivePointBorderColor
    ensures props.verticalLineColor
         == if TruthyString(config.verticalLineColor) then config.verticalLineColor.value else Defaults.VerticalLineColor
    ensures props.radius == if TruthyNumber(config.radius) then config.radius.value else Defaults.ActivePointRadius
    ensures props.verticalLineWidth
         == if TruthyNumber(config.verticalLineWidth) then config.verticalLineWidth.value else Defaults.VerticalLineWidth
    ensures props.verticalLineOpacity
         == if TruthyNumber(config.verticalLineOpacity) then config.verticalLineOpacity.value
            else Defaults.VerticalLineOpacity
    // An array is always truthy: a configured dash array, even an empty one, is kept.
    ensures config.verticalLineDashArray.Some? ==> props.verticalLineDashArray == config.verticalLineDashArray.value
    ensures config.verticalLineDashArray.None? ==> props.verticalLineDashArray == Defaults.VerticalLineDashArray
    // `!== undefined` fields: the configured value whenever it is defined, false included.
    ensures config.showVerticalLine.Some? ==> props.showVerticalLine == config.showVerticalLine.value
    ensures config.showVerticalLine.None? ==> props.showVerticalLine == Defaults.ShowVerticalLine
    ensures config.showActivePointCircle.Some? ==> props.showActivePointCircle == config.showActivePointCircle.value
    ensures config.showActivePointCircle.None? ==> props.showActivePointCircle == Defaults.ShowActivePointCircle
    ensures config.animateTransition.Some? ==> props.animateTransition == config.animateTransition.value
    ensures config.animateTransition.None? ==> props.animateTransition == Defaults.AnimateTransition
  {
    ActivePointProps(
      color := color,
      borderColor := StringOr(config.borderColor, Defaults.ActivePointBorderColor),
      borderWidth := if config.borderWidth.Some? && config.borderWidth.value >= 0.0
                     then config.borderWidth.value else Defaults.ActivePointBorderWidth,
      showVerticalLine := DefinedOr(config.showVerticalLine, Defaults.ShowVerticalLine),
      showActivePointCircle := DefinedOr(config.showActivePointCircle, Defaults.ShowActivePointCircle),
      verticalLineColor := StringOr(config.verticalLineColor, Defaults.VerticalLineColor),
      verticalLineWidth := NumberOr(config.verticalLineWidth, Defaults.VerticalLineWidth),
      verticalLineDashArray := config.verticalLineDashArray.GetOr(Defaults.VerticalLineDashArray),
      verticalLineOpacity := NumberOr(config.verticalLineOpacity, Defaults.VerticalLineOpacity),
      animateTransition := DefinedOr(config.animateTransition, Defaults.AnimateTransition),
      radius := NumberOr(config.radius, Defaults.ActivePointRadius))
  }

  /** The ActivePoint element of a line: drawn only when the line has an
      `activePointConfig`, and then with every prop resolved. */
  function ActivePointElement(line: Line): (props: Option<ActivePointProps>)
    ensures props.Some? <==> line.activePointConfig.Some?
    ensures props.Some? ==>
              props.value == ResolveActivePoint(line.activePointConfig.value,
                                                ActivePointColor(line.activePointConfig, line.lineColor))
    ensures props.Some? ==> props.value.borderWidth >= 0.0
    ensures props.Some? ==> props.value.radius != 0.0 && props.value.verticalLineWidth != 0.0
    ensures props.Some? ==> props.value.borderColor != "" && props.value.verticalLineColor != ""
  {
    match line.activePointConfig
    case None => None
    case Some(config) => Some(ResolveActivePoint(config, ActivePointColor(line.activePointConfig, line.lineColor)))
  }

  /** `borderWidth` is the configured value exactly when it is defined and not
      negative, and 2 otherwise; so it is never negative. */
  lemma BorderWidthRule(config: ActivePointConfig, color: string)
    ensures var w := ResolveActivePoint(config, color).borderWidth;
            && w >= 0.0
            && (config.borderWidth.Some? && config.borderWidth.value >= 0.0 ==> w == config.borderWidth.value)
            && (!(config.borderWidth.Some? && config.borderWidth.value >= 0.0) ==> w == Defaults.ActivePointBorderWidth)
  {
  }

  /** The two defaulting styles disagree on 0 and false: a configured
      `borderWidth: 0` and `showVerticalLine: false` are kept, while
      `radius: 0`, `verticalLineWidth: 0` and `verticalLineOpacity: 0` are
      replaced by 4, 1 and 1. */
  lemma ZeroAndFalseHandling(config: ActivePointConfig, color: string)
    requires config.borderWidth == Some(0.0) && config.radius == Some(0.0)
    requires config.verticalLineWidth == Some(0.0) && config.verticalLineOpacity == Some(0.0)
    requires config.showVerticalLine == Some(false) && config.animateTransition == Some(false)
    ensures var props := ResolveActivePoint(config, color);
            && props.borderWidth == 0.0
            && props.radius == Defaults.ActivePointRadius
            && props.verticalLineWidth == Defaults.VerticalLineWidth
            && props.verticalLineOpacity == Defaults.VerticalLineOpacity
            && !props.showVerticalLine
            && !props.animateTransition
  {
  }

  /** An empty configuration block resolves to the defaults table. */
  lemma EmptyConfigGivesDefaults(color: string)
    ensures ResolveActivePoint(ActivePointConfig(None, None, None, None, None, None, None, None, None, None, None), color)
         == ActivePointProps(color, Defaults.ActivePointBorderColor, Defaults.ActivePointBorderWidth,
                             Defaults.ActivePointRadius, Defaults.ShowVerticalLine, Defaults.ShowActivePointCircle,
                             Defaults.VerticalLineColor, Defaults.VerticalLineWidth, Defaults.VerticalLineDashArray,
                             Defaults.VerticalLineOpacity, Defaults.AnimateTransition)
  {
  }

  /** The EndPoint props: every field through `||`. */
  datatype EndPointProps = EndPointProps(color: string, animated: bool, radius: real)

  function ResolveEndPoint(config: EndPointConfig): (props: EndPointProps)
    ensures props.color == if TruthyString(config.color) then config.color.value else Defaults.EndPointColor
    ensures props.radius == if TruthyNumber(config.radius) then config.radius.value else Defaults.EndPointRadius
    ensures props.animated <==> config.animated == Some(true)
    ensures props.radius != 0.0 && props.color != ""
  {
    EndPointProps(
      StringOr(config.color, Defaults.EndPointColor),
      BoolOr(config.animated, Defaults.EndPointAnimated),
      NumberOr(config.radius, Defaults.EndPointRadius))
  }

  /** The EndPoint element of a line: drawn only when the line has an
      `endPointConfig` and the chart animation provides an end-point
      animation, and then with every prop resolved. */
  function EndPointElement(line: Line, hasEndPointAnimation: bool): (props: Option<EndPointProps>)
    ensures props.Some? <==> line.endPointConfig.Some? && hasEndPointAnimation
    ensures props.Some? ==> props.value == ResolveEndPoint(line.endPointConfig.value)
  {
    if line.endPointConfig.Some? && hasEndPointAnimation then Some(ResolveEndPoint(line.endPointConfig.value))
    else None
  }

  /** The trailing spacing handed to the path builder: only an undefined
      `endSpacing` falls back to 20; an explicit 0 is kept. */
  function EndSpacing(configured: Option<real>): (spacing: real)
    ensures configured.Some? ==> spacing == configured.value
    ensures configured.None? ==> spacing == Defaults.EndSpacing
  {
    DefinedOr(configured, Defaults.EndSpacing)
  }

  /** The arguments of one path build (`localCreateNewPath`). The path builder
      itself is not part of this model; a built path is identified by the
      arguments it was built from. */
  datatype PathArgs = PathArgs(
    data: seq<DataPoint>, endSpacing: real, svgHeight: real, svgWidth: real,
    isFilled: bool, curve: Option<string>, axis: AxisMinMax)

  function LocalPathArgs(line: Line, endSpacing: Option<real>, svgHeight: real, svgWidth: real, axis: AxisMinMax)
    : (args: PathArgs)
    ensures args.isFilled <==> line.isAreaChart == Some(true)
    ensures args.data == DataOf(line) && args.curve == line.curve
    ensures args.endSpacing == EndSpacing(endSpacing)
  {
    PathArgs(DataOf(line), EndSpacing(endSpacing), svgHeight, svgWidth,
             line.isAreaChart == Some(true), line.curve, axis)
  }

  /** How a path is painted: with the line's gradient, or not at all. */
  datatype Paint = GradientUrl(id: string) | Transparent

  /** The stroke width: 2 unless configured; a configured 0 is kept. */
  function StrokeWidth(line: Line): (width: real)
    ensures line.lineWidth.Some? ==> width == line.lineWidth.value
    ensures line.lineWidth.None? ==> width == 2.0
  {
    DefinedOr(line.lineWidth, 2.0)
  }

  /** The stroke always uses the line's gradient. */
  function Stroke(id: string): Paint {
    GradientUrl(id)
  }

  /** The fill uses the gradient for area charts and ranged lines and is
      transparent otherwise. */
  function Fill(line: Line, id: string): (fill: Paint)
    ensures fill.GradientUrl? <==> line.isAreaChart == Some(true) || IsRanged(DataOf(line))
    ensures fill.GradientUrl? ==> fill == Stroke(id)
  {
    if line.isAreaChart == Some(true) || IsRanged(DataOf(line)) then GradientUrl(id) else Transparent
  }

  /** A closed area path is always painted; a ranged line that is not an area
      chart is painted although its path is built without the baseline closure. */
  lemma FillFollowsPathClosure(line: Line, endSpacing: Option<real>, svgHeight: real, svgWidth: real,
                               axis: AxisMinMax, id: string)
    ensures LocalPathArgs(line, endSpacing, svgHeight, svgWidth, axis).isFilled ==> Fill(line, id).GradientUrl?
    ensures IsRanged(DataOf(line)) && line.isAreaChart != Some(true) ==>
              Fill(line, id).GradientUrl? && !LocalPathArgs(line, endSpacing, svgHeight, svgWidth, axis).isFilled
  {
  }

  /** The gradient's horizontal anchors: the pixel x of the first and last
      points through the path's x projection, but 0 and `svgWidth` whenever
      that point is missing or its x is 0 (a falsy number). */
  function GradientAnchors(data: seq<DataPoint>, projectX: real -> real, svgWidth: real): (anchors: (real, real))
    ensures |data| == 0 ==> anchors == (0.0, svgWidth)
    ensures |data| > 0 && data[0].x != 0.0 ==> anchors.0 == projectX(data[0].x)
    ensures |data| > 0 && data[0].x == 0.0 ==> anchors.0 == 0.0
    ensures |data| > 0 && data[|data| - 1].x != 0.0 ==> anchors.1 == projectX(data[|data| - 1].x)
    ensures |data| > 0 && data[|data| - 1].x == 0.0 ==> anchors.1 == svgWidth
  {
    var startX := if |data| > 0 && data[0].x != 0.0 then projectX(data[0].x) else 0.0;
    var endX := if |data| > 0 && data[|data| - 1].x != 0.0 then projectX(data[|data| - 1].x) else svgWidth;
    (startX, endX)
  }

  /** The truthiness test decides only where an x of 0 is involved: the start
      anchor is always the projection of the first point when the projection
      sends 0 to 0, and the end anchor is the projection of the last point
      exactly when that point's x is not 0 or the projection sends 0 to
      `svgWidth`. */
  lemma AnchorsProjectEndPoints(data: seq<DataPoint>, projectX: real -> real, svgWidth: real)
    requires |data| > 0
    ensures projectX(0.0) == 0.0 ==> GradientAnchors(data, projectX, svgWidth).0 == projectX(data[0].x)
    ensures GradientAnchors(data, projectX, svgWidth).1 == projectX(data[|data| - 1].x)
            <==> data[|data| - 1].x != 0.0 || projectX(0.0) == svgWidth
  {
  }

  /** The line's current path. A change of the effect's dependencies builds
      a new path; without an animation it replaces the current one at once,
      with one it is handed to the animation as the action to run when the
      old geometry is swapped out (src/SvgPath.tsx:216-227). */
  class LinePathState {
    var localPath: PathArgs

    constructor (initial: PathArgs)
      ensures localPath == initial
    {
      localPath := initial;
    }

    method OnDependenciesChanged(next: PathArgs, animated: bool) returns (action: Option<PathArgs>)
      modifies this
      ensures animated ==> localPath == old(localPath) && action == Some(next)
      ensures !animated ==> localPath == next && action == None
    {
      if animated {
        action := Some(next);
      } else {
        localPath := next;
        action := None;
      }
    }

    /** `setLocalPath`, run directly or as the animation's action. */
    method SetLocalPath(path: PathArgs)
      modifies this
      ensures localPath == path
    {
      localPath := path;
    }
  }
}
