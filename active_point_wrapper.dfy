/** The follower element that tracks the active point
    (src/ActivePointComponentWrapper.tsx): where it is placed, how the
    reaction to a new active point updates the component's state, and which
    of the two custom renderers is drawn. */
module ActivePointWrapper {
  import opened JsValues
  import opened ChartTypes

  /** The gap between the follower and the vertical line through the active point. */
  const SpaceBetweenComponentAndLine: real := 15.0

  /** The width assumed for the follower before its first layout. */
  const InitialComponentWidth: real := 100.0

  /** `componentPositionX`: the horizontal translation of a follower of width
      `componentWidth` for an active point at `x` on a chart `width` wide.
      Left to right, it sits to the right of the line and flips to the left
      when it would overflow; right to left, it sits to the left and flips to
      the right when it would overflow. */
  function ComponentPositionX(x: real, width: real, componentWidth: real, isRtl: bool): (left: real)
    // Left to right: 15 right of the line, or with overflow the right edge 15 left of it.
    ensures !isRtl && width - x >= componentWidth + 15.0 ==> left == x + 15.0
    ensures !isRtl && width - x < componentWidth + 15.0 ==> left + componentWidth == x - 15.0
    // Right to left, measured from the right edge at distance `width - x` from the line:
    // 15 beyond the line, or with overflow the far edge 15 short of it.
    ensures isRtl && x >= componentWidth + 15.0 ==> -left == (width - x) + 15.0
    ensures isRtl && x < componentWidth + 15.0 ==> -left + componentWidth == (width - x) - 15.0
  {
    var reach := componentWidth + SpaceBetweenComponentAndLine;
    if isRtl then
      (if x < reach then x - width + reach else x - width - SpaceBetweenComponentAndLine)
    else if width - x < reach then x - componentWidth - SpaceBetweenComponentAndLine
    else x + SpaceBetweenComponentAndLine
  }

  /** Left to right: without overflow the follower starts 15 right of the
      line and its right edge stays within the chart; with overflow its right
      edge sits exactly 15 left of the line. Either way it never covers the
      line. */
  lemma LtrPlacement(x: real, width: real, componentWidth: real)
    ensures var left := ComponentPositionX(x, width, componentWidth, false);
            && (width - x >= componentWidth + 15.0 ==> left == x + 15.0 && left + componentWidth <= width)
            && (width - x < componentWidth + 15.0 ==> left + componentWidth == x - 15.0)
            && (left == x + 15.0 || left + componentWidth == x - 15.0)
  {
  }

  /** Right to left is the mirror image: the translation for `x` is the
      negated left-to-right translation for the mirrored position `width - x`. */
  lemma RtlMirrorsLtr(x: real, width: real, componentWidth: real)
    ensures ComponentPositionX(x, width, componentWidth, true)
         == -ComponentPositionX(width - x, width, componentWidth, false)
  {
  }

  /** The `previous` argument of the reaction: reanimated passes `null` before
      the first value, which is not `undefined`. */
  datatype Prior = Initial | Seen(value: Option<DataPoint>)

  /** The number of undefined-to-defined transitions between consecutive
      values of `h`. */
  function Rises(h: seq<Option<DataPoint>>): nat
    decreases |h|
  {
    if |h| < 2 then 0
    else Rises(h[..|h| - 1]) + (if h[|h| - 2].None? && h[|h| - 1].Some? then 1 else 0)
  }

  /** Reference definition: the positions where a defined value follows an undefined one. */
  function RisePositions(h: seq<Option<DataPoint>>): set<int> {
    set i | 1 <= i < |h| && h[i - 1].None? && h[i].Some?
  }

  lemma {:induction false} RisesCountsTransitions(h: seq<Option<DataPoint>>)
    ensures Rises(h) == |RisePositions(h)|
    decreases |h|
  {
    if |h| < 2 {
      assert RisePositions(h) == {};
    } else {
      var front := h[..|h| - 1];
      RisesCountsTransitions(front);
      var k := |h| - 1;
      assert RisePositions(front) == set i | i in RisePositions(h) && i < k;
      if h[k - 1].None? && h[k].Some? {
        assert RisePositions(h) == RisePositions(front) + {k};
        assert k !in RisePositions(front);
      } else {
        assert RisePositions(h) == RisePositions(front);
      }
    }
  }

  /** Frames at a constant defined point after it became defined add no
      forced re-render, however many there are. */
  lemma {:induction false} SteadyPointAddsNoRerender(h: seq<Option<DataPoint>>, p: DataPoint, k: nat)
    requires h != [] && h[|h| - 1] == Some(p)
    ensures Rises(h + seq(k, _ => Some(p))) == Rises(h)
    decreases k
  {
    if k == 0 {
      assert h + seq(k, _ => Some(p)) == h;
    } else {
      var shorter := h + seq(k - 1, _ => Some(p));
      SteadyPointAddsNoRerender(h, p, k - 1);
      assert h + seq(k, _ => Some(p)) == shorter + [Some(p)];
      assert (shorter + [Some(p)])[..|shorter|] == shorter;
      assert shorter[|shorter| - 1] == Some(p);
    }
  }

  /** What is rendered inside the follower. */
  datatype Followers = Followers(sharedValueComponent: bool, plainComponent: Option<DataPoint>)

  /** A configured shared-value renderer is always drawn and excludes the
      plain one; the plain renderer is drawn, with the local snapshot, only
      when there is no shared-value renderer, the snapshot is defined and a
      plain renderer is configured. */
  function RenderedFollowers(hasSharedValueComponent: bool, localPoint: Option<DataPoint>, hasPlainComponent: bool)
    : (r: Followers)
    ensures r.sharedValueComponent == hasSharedValueComponent
    ensures r.plainComponent.Some? <==> !hasSharedValueComponent && localPoint.Some? && hasPlainComponent
    ensures r.plainComponent.Some? ==> r.plainComponent == localPoint
    ensures !(r.sharedValueComponent && r.plainComponent.Some?)
  {
    Followers(hasSharedValueComponent,
              if !hasSharedValueComponent && localPoint.Some? && hasPlainComponent then localPoint else None)
  }

  /** The wrapper's state across frames. `history` is the sequence of values
      the reaction has seen; `Valid` ties every field to it. */
  class Follower {
    const hasPlainComponent: bool
    const hasSharedValueComponent: bool
    var componentWidth: real
    var localPoint: Option<DataPoint>
    var previous: Prior
    var forcedRerenders: nat
    ghost var history: seq<Option<DataPoint>>

    ghost predicate Valid()
      reads this
    {
      && forcedRerenders == Rises(history)
      && previous == (if history == [] then Initial else Seen(history[|history| - 1]))
      && localPoint == (if hasPlainComponent && history != [] then history[|history| - 1] else None)
    }

    constructor (hasPlainComponent: bool, hasSharedValueComponent: bool)
      ensures Valid() && history == []
      ensures this.hasPlainComponent == hasPlainComponent
      ensures this.hasSharedValueComponent == hasSharedValueComponent
      ensures componentWidth == InitialComponentWidth && localPoint == None && forcedRerenders == 0
    {
      this.hasPlainComponent := hasPlainComponent;
      this.hasSharedValueComponent := hasSharedValueComponent;
      componentWidth := InitialComponentWidth;
      localPoint := None;
      previous := Initial;
      forcedRerenders := 0;
      history := [];
    }

    /** The reaction to a new active-point value: force one re-render when it
        turns from undefined to defined, and copy it into the local snapshot
        when a plain renderer is configured. */
    method React(current: Option<DataPoint>)
      requires Valid()
      modifies this`localPoint, this`previous, this`forcedRerenders, this`history
      ensures Valid()
      ensures history == old(history) + [current]
      ensures forcedRerenders == old(forcedRerenders) + (if old(previous) == Seen(None) && current.Some? then 1 else 0)
      ensures localPoint == if hasPlainComponent then current else old(localPoint)
    {
      ghost var before := history;
      if current.Some? && previous == Seen(None) {
        forcedRerenders := forcedRerenders + 1;
      }
      if hasPlainComponent {
        localPoint := current;
      }
      previous := Seen(current);
      history := history + [current];
      assert history[..|history| - 1] == before;
    }

    /** The follower's `onLayout`: the measured width replaces the assumed one. */
    method OnLayout(measuredWidth: real)
      requires Valid()
      modifies this`componentWidth
      ensures Valid()
      ensures componentWidth == measuredWidth
    {
      componentWidth := measuredWidth;
    }

    /** The follower's translation for an active point at `x`, with the
        width last measured by `OnLayout` (100 before the first layout). */
    function PositionX(x: real, width: real, isRtl: bool): (left: real)
      reads this
      ensures !isRtl && width - x >= componentWidth + 15.0 ==> left == x + 15.0
      ensures !isRtl && width - x < componentWidth + 15.0 ==> left + componentWidth == x - 15.0
    {
      ComponentPositionX(x, width, componentWidth, isRtl)
    }

    /** What the follower renders now. */
    function Rendered(): Followers
      reads this
    {
      RenderedFollowers(hasSharedValueComponent, localPoint, hasPlainComponent)
    }
  }
}
