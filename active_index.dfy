/** The active index: which point of the active line a touch at a pixel
    offset selects (src/SvgPath.tsx:82-115). The nearest-point search itself
    lives outside this model and is a parameter here; nothing is assumed
    about what it returns. */
module ActiveIndex {
  import opened JsValues
  import opened ChartTypes

  /** `lines[activeLineIndex]?.data || []`: an index outside the list, or a
      line without data, gives the empty series. */
  function ActiveLineData(lines: seq<Line>, activeLineIndex: int): seq<DataPoint> {
    if 0 <= activeLineIndex < |lines| then DataOf(lines[activeLineIndex]) else []
  }

  /** `interpolate(percentage, [0, 100], [lo, hi])`: the linear map that sends
      0 to `lo` and 100 to `hi`, extended beyond both ends. */
  function PercentToDomain(percentage: real, lo: real, hi: real): real {
    lo + (percentage / 100.0) * (hi - lo)
  }

  /** The map hits both ends of the axis and keeps the order of percentages
      when the axis is not reversed. */
  lemma PercentToDomainEnds(p: real, q: real, lo: real, hi: real)
    ensures PercentToDomain(0.0, lo, hi) == lo
    ensures PercentToDomain(100.0, lo, hi) == hi
    ensures lo <= hi && p <= q ==> PercentToDomain(p, lo, hi) <= PercentToDomain(q, lo, hi)
  {
  }

  /** The domain x that a truncated touch offset points at: the offset taken as
      a percentage of the drawable width `svgWidth - endSpacing`, mapped onto
      `[minX, maxX]`. */
  function TouchTarget(touch: int, svgWidth: real, endSpacing: real, axis: AxisMinMax): real
    requires svgWidth - endSpacing != 0.0
  {
    var percentage := (touch as real / (svgWidth - endSpacing)) * 100.0;
    PercentToDomain(percentage, axis.minX, axis.maxX)
  }

  /** The percentage detour cancels out: the target is `minX` plus the touch's
      share of the drawable width times the axis span. A touch at the left
      edge targets `minX`; a touch at the end of the drawable width targets `maxX`. */
  lemma TouchTargetIsLinear(touch: int, svgWidth: real, endSpacing: real, axis: AxisMinMax)
    requires svgWidth - endSpacing != 0.0
    ensures TouchTarget(touch, svgWidth, endSpacing, axis)
         == axis.minX + (touch as real / (svgWidth - endSpacing)) * (axis.maxX - axis.minX)
    ensures touch == 0 ==> TouchTarget(touch, svgWidth, endSpacing, axis) == axis.minX
    ensures touch as real == svgWidth - endSpacing ==> TouchTarget(touch, svgWidth, endSpacing, axis) == axis.maxX
  {
  }

  /** The active index for one frame. A touch whose truncated offset is 0
      while a truthy `initialActivePoint` is given selects that point as it is,
      without any clamping; `initialActivePoint == 0` never takes that path.
      Otherwise the nearest-point search answers for the active line's series
      and its answer is clamped from above to the last index: an answer inside
      the series is kept, anything beyond it becomes `dataLength - 1`, which
      is -1 for an empty series. Nothing clamps from below. */
  method ActiveIndex(
    touchX: real, initialActivePoint: Option<int>, lines: seq<Line>, activeLineIndex: int,
    axis: AxisMinMax, svgWidth: real, endSpacing: real,
    nearest: (seq<DataPoint>, real) -> int)
    returns (index: int)
    requires svgWidth - endSpacing != 0.0
    ensures ToInt32(touchX) == 0 && TruthyInt(initialActivePoint) ==> index == initialActivePoint.value
    ensures !(ToInt32(touchX) == 0 && TruthyInt(initialActivePoint)) ==>
              var data := ActiveLineData(lines, activeLineIndex);
              var found := nearest(data, TouchTarget(ToInt32(touchX), svgWidth, endSpacing, axis));
              && index <= |data| - 1
              && (found < |data| ==> index == found)
              && (found >= |data| ==> index == |data| - 1)
  {
    var touchWithoutDecimals := ToInt32(touchX);
    if touchWithoutDecimals == 0 && TruthyInt(initialActivePoint) {
      return initialActivePoint.value;
    }
    var data := ActiveLineData(lines, activeLineIndex);
    var dataLength := |data|;
    var target := TouchTarget(touchWithoutDecimals, svgWidth, endSpacing, axis);
    index := nearest(data, target);
    if index >= dataLength {
      index := dataLength - 1;
    }
  }
}
