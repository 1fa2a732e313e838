/** The gradient stops a line is stroked (and filled) with
    (`getStopPoints`, src/SvgPath.tsx:246-329). */
module GradientStops {
  import opened JsValues
  import opened ChartTypes
  import MemoKeys

  /** A stop offset in percent. `NotANumber` is the NaN that `0 / 0` gives
      for a gradient list of exactly one colour. */
  datatype Offset = Percent(value: real) | NotANumber

  datatype Stop = Stop(offset: Offset, color: string, opacity: real)

  /** The colours the stops are drawn with: a gradient's own list, or the solid
      colour four times (leading opacity, leading position, trailing position,
      trailing opacity). */
  function StopColors(lineColor: LineColor): seq<string> {
    match lineColor
    case Gradient(_, colors) => colors
    case Solid(c) => [c, c, c, c]
  }

  /** `100 - (index / (count - 1)) * 100`: evenly spaced from 100 down to 0. */
  function DefaultOffset(index: nat, count: nat): Offset
    requires index < count
  {
    if count == 1 then NotANumber
    else Percent(100.0 - (index as real / (count - 1) as real) * 100.0)
  }

  /** The percentage of a fade given as an object with a truthy percentage. */
  predicate HasPercentage(fade: Option<Fade>) {
    fade.Some? && fade.value.Described? && TruthyNumber(fade.value.percentage)
  }

  /** `getOffset`: gradients and the two end stops keep the default offset;
      the second stop of a solid line follows the leading percentage and the
      second-to-last the trailing one, each at 50 without one. */
  function StopOffset(index: nat, count: nat, isGradient: bool, leading: Option<Fade>, trailing: Option<Fade>)
    : (offset: Offset)
    requires index < count
    ensures offset.NotANumber? <==> count == 1
    ensures count >= 2 && index == 0 ==> offset == Percent(100.0)
    ensures count >= 2 && index == count - 1 ==> offset == Percent(0.0)
    ensures !isGradient && (index == 1 || index == count - 2) && 0 < index < count - 1
            && !HasPercentage(leading) && !HasPercentage(trailing)
            ==> offset == Percent(50.0)
  {
    if isGradient || index == 0 || index == count - 1 then DefaultOffset(index, count)
    else if index == 1 then
      (if HasPercentage(leading) then Percent(100.0 - leading.value.percentage.value / 2.0) else Percent(50.0))
    else if index == count - 2 then
      (if HasPercentage(trailing) then Percent(trailing.value.percentage.value / 2.0) else Percent(50.0))
    else DefaultOffset(index, count)
  }

  /** `getStopOpacity`: the first stop takes the leading opacity and the last
      the trailing one, when given (an object contributes its `opacity`);
      every other stop is fully opaque. The leading rule is tried first. */
  function StopOpacity(index: nat, count: nat, leading: Option<Fade>, trailing: Option<Fade>): (opacity: real)
    ensures index != 0 && index != count - 1 ==> opacity == 1.0
    ensures leading.None? && trailing.None? ==> opacity == 1.0
    ensures index == 0 && leading.Some? ==> opacity == leading.value.opacity
    ensures index != 0 && index == count - 1 && trailing.Some? ==> opacity == trailing.value.opacity
  {
    if index == 0 && leading.Some? then leading.value.opacity
    else if index == count - 1 && trailing.Some? then trailing.value.opacity
    else 1.0
  }

  /** The stop list of a line: one stop per colour, in order. A gradient has
      as many stops as colours; a solid colour has exactly four, all of that
      colour. */
  function StopPoints(lineColor: LineColor, leading: Option<Fade>, trailing: Option<Fade>): (stops: seq<Stop>)
    ensures lineColor.Gradient? ==>
              |stops| == |lineColor.colors| &&
              forall i :: 0 <= i < |stops| ==> stops[i].color == lineColor.colors[i]
    ensures lineColor.Solid? ==>
              |stops| == 4 && forall i :: 0 <= i < |stops| ==> stops[i].color == lineColor.color
  {
    var colors := StopColors(lineColor);
    seq(|colors|, i requires 0 <= i < |colors| =>
      Stop(StopOffset(i, |colors|, lineColor.Gradient?, leading, trailing),
           colors[i],
           StopOpacity(i, |colors|, leading, trailing)))
  }

  /** With two or more stops the first sits at 100% and the last at 0%,
      whatever the fade settings. */
  lemma EndOffsets(lineColor: LineColor, leading: Option<Fade>, trailing: Option<Fade>)
    requires |StopPoints(lineColor, leading, trailing)| >= 2
    ensures var stops := StopPoints(lineColor, leading, trailing);
            stops[0].offset == Percent(100.0) && stops[|stops| - 1].offset == Percent(0.0)
  {
  }

  /** A gradient's stops are evenly spaced: consecutive offsets differ by
      `100 / (n - 1)` and all lie within [0, 100]. */
  lemma GradientOffsetsEvenlySpaced(lineColor: LineColor, leading: Option<Fade>, trailing: Option<Fade>, i: nat)
    requires lineColor.Gradient? && |lineColor.colors| >= 2 && i < |lineColor.colors|
    ensures var stops := StopPoints(lineColor, leading, trailing);
            && stops[i].offset.Percent?
            && 0.0 <= stops[i].offset.value <= 100.0
            && (i + 1 < |stops| ==>
                  stops[i].offset.value - stops[i + 1].offset.value == 100.0 / (|stops| - 1) as real)
  {
  }

  /** The middle stops of a solid line: the second follows the leading
      percentage (`100 - p / 2`) and the third the trailing one (`p / 2`),
      each at 50 unless the fade is an object with a truthy percentage. With
      percentages within (0, 100] the four offsets never increase, so the
      fades never cross. */
  lemma SolidMiddleOffsets(color: string, leading: Option<Fade>, trailing: Option<Fade>)
    ensures var stops := StopPoints(Solid(color), leading, trailing);
            && stops[1].offset == Percent(if HasPercentage(leading) then 100.0 - leading.value.percentage.value / 2.0 else 50.0)
            && stops[2].offset == Percent(if HasPercentage(trailing) then trailing.value.percentage.value / 2.0 else 50.0)
    ensures var stops := StopPoints(Solid(color), leading, trailing);
            (!HasPercentage(leading) || leading.value.percentage.value <= 100.0) &&
            (!HasPercentage(trailing) || trailing.value.percentage.value <= 100.0) &&
            (!HasPercentage(leading) || leading.value.percentage.value >= 0.0) &&
            (!HasPercentage(trailing) || trailing.value.percentage.value >= 0.0)
            ==> 100.0 >= stops[1].offset.value >= stops[2].offset.value >= 0.0
  {
  }

  /** Stop opacities: the first stop carries the leading fade's opacity when
      one is given, the last (of two or more) the trailing fade's, and every
      stop in between is fully opaque. */
  lemma StopOpacities(lineColor: LineColor, leading: Option<Fade>, trailing: Option<Fade>, i: nat)
    requires i < |StopPoints(lineColor, leading, trailing)|
    ensures var stops := StopPoints(lineColor, leading, trailing);
            && (i == 0 ==> stops[i].opacity == if leading.Some? then leading.value.opacity
                                               else if |stops| == 1 && trailing.Some? then trailing.value.opacity
                                               else 1.0)
            && (0 < i == |stops| - 1 ==> stops[i].opacity == if trailing.Some? then trailing.value.opacity else 1.0)
            && (0 < i < |stops| - 1 ==> stops[i].opacity == 1.0)
  {
  }

  /** A solid colour with no fade configuration: four opaque stops at
      100, 50, 50 and 0. */
  lemma PlainSolidStops(color: string)
    ensures StopPoints(Solid(color), None, None)
         == [Stop(Percent(100.0), color, 1.0), Stop(Percent(50.0), color, 1.0),
             Stop(Percent(50.0), color, 1.0), Stop(Percent(0.0), color, 1.0)]
  {
  }

  /** A three-colour gradient: stops at 100, 50 and 0. */
  lemma ThreeColourGradient(ref: nat, a: string, b: string, c: string)
    ensures var stops := StopPoints(Gradient(ref, [a, b, c]), None, None);
            stops == [Stop(Percent(100.0), a, 1.0), Stop(Percent(50.0), b, 1.0), Stop(Percent(0.0), c, 1.0)]
  {
  }

  // The stop list is cached with `useCallback`, keyed on `line.lineColor` and
  // `line.trailingOpacity` only. A re-render that changes `leadingOpacity`
  // but neither key reuses the list computed for the earlier line.

  /** The stops rendered for `line` when the cached callback was created for
      `cached`, with the keys as the source writes them. */
  function CachedStopsAsWritten(cached: Line, line: Line): seq<Stop> {
    if line.lineColor == cached.lineColor && line.trailingOpacity == cached.trailingOpacity
    then StopPoints(cached.lineColor, cached.leadingOpacity, cached.trailingOpacity)
    else StopPoints(line.lineColor, line.leadingOpacity, line.trailingOpacity)
  }

  /** A solid red line first drawn without a leading fade, then re-rendered
      with one more point (so the memo comparator lets the render through) and
      `leadingOpacity: 0.2`: the first stop stays fully opaque. */
  lemma StaleLeadingOpacity(p: DataPoint, show: real -> string)
    ensures var before := Line(Some([]), Solid("red"), None, None, None, None, None, None, None, None);
            var after := before.(data := Some([p]), leadingOpacity := Some(Level(0.2)));
            && !MemoKeys.MemoEqual(before, [], after, [p], show)
            && CachedStopsAsWritten(before, after)[0].opacity == 1.0
            && StopPoints(after.lineColor, after.leadingOpacity, after.trailingOpacity)[0].opacity == 0.2
  {
  }

  /** The stops rendered with `leadingOpacity` among the cache keys. */
  function CachedStops(cached: Line, line: Line): (stops: seq<Stop>)
    ensures stops == StopPoints(line.lineColor, line.leadingOpacity, line.trailingOpacity)
  {
    if line.lineColor == cached.lineColor && line.leadingOpacity == cached.leadingOpacity
       && line.trailingOpacity == cached.trailingOpacity
    then StopPoints(cached.lineColor, cached.leadingOpacity, cached.trailingOpacity)
    else StopPoints(line.lineColor, line.leadingOpacity, line.trailingOpacity)
  }
}
