/** When a line component re-renders and when its path effect runs again: the
    `React.memo` comparator (src/SvgPath.tsx:491-514) and the dependency list
    of the path effect (src/SvgPath.tsx:228-240). Both reduce the y values
    to one joined string, but they test `y2` differently: the comparator
    asks whether `y2` is defined, the effect whether it is truthy.
    `show` is JavaScript's rendering of a number as a string. */
module MemoKeys {
  import opened JsValues
  import opened ChartTypes

  /** One point's share of the comparator's string: `${y}${y2}` when `y2` is
      defined, otherwise `y`. */
  function MemoToken(p: DataPoint, show: real -> string): string {
    if p.y2.Some? then show(p.y) + show(p.y2.value) else show(p.y)
  }

  /** One point's share of the effect's string: `${y}${y2}` when `y2` is
      truthy, otherwise `y`. */
  function EffectToken(p: DataPoint, show: real -> string): string {
    if TruthyNumber(p.y2) then show(p.y) + show(p.y2.value) else show(p.y)
  }

  /** `data.map(token).join('')`. */
  function Join(data: seq<DataPoint>, token: DataPoint -> string): string
    decreases |data|
  {
    if data == [] then "" else token(data[0]) + Join(data[1..], token)
  }

  function MemoKey(data: seq<DataPoint>, show: real -> string): string {
    Join(data, p => MemoToken(p, show))
  }

  function EffectKey(data: seq<DataPoint>, show: real -> string): string {
    Join(data, p => EffectToken(p, show))
  }

  /** `===` on line colours: strings by value, arrays by identity. */
  predicate SameColor(a: LineColor, b: LineColor) {
    match a
    case Solid(s) => b.Solid? && b.color == s
    case Gradient(r, _) => b.Gradient? && b.ref == r
  }

  /** The memo comparator: true means "equal props", so the line does not
      re-render. It compares the number of points of the line, its curve,
      colour and key, and the y string of the whole chart's `allData`. Any
      props compare equal to themselves. */
  predicate MemoEqual(prev: Line, prevAll: seq<DataPoint>, next: Line, nextAll: seq<DataPoint>, show: real -> string)
    : (equal: bool)
    ensures prev == next && prevAll == nextAll ==> equal
    ensures equal ==> |DataOf(prev)| == |DataOf(next)| && prev.curve == next.curve && prev.key == next.key
    ensures equal && prev.lineColor.Solid? ==> next.lineColor == prev.lineColor
  {
    && |DataOf(prev)| == |DataOf(next)|
    && prev.curve == next.curve
    && SameColor(prev.lineColor, next.lineColor)
    && prev.key == next.key
    && MemoKey(prevAll, show) == MemoKey(nextAll, show)
  }

  /** The path effect's dependencies. `allDataRef` is the identity of the
      `allData` array, which React compares by reference; the chart builds a
      new array on every one of its renders. The effect runs again exactly
      when some dependency differs. */
  datatype EffectDeps = EffectDeps(yKey: string, curve: Option<string>, key: Option<string>, allDataRef: nat)

  /** The dependencies of one render of `line`. Unless a point has a `y2` of 0,
      their y string is the comparator's string for the line's own series. */
  function EffectDepsOf(line: Line, allDataRef: nat, show: real -> string): (deps: EffectDeps)
    ensures deps.curve == line.curve && deps.key == line.key && deps.allDataRef == allDataRef
    ensures (forall i :: 0 <= i < |DataOf(line)| ==> DataOf(line)[i].y2 != Some(0.0)) ==>
              deps.yKey == MemoKey(DataOf(line), show)
  {
    KeysAgreeWithoutZeroY2(DataOf(line), show);
    EffectDeps(EffectKey(DataOf(line), show), line.curve, line.key, allDataRef)
  }

  /** The two tokens agree on every point except one whose `y2` is 0: the
      comparator then appends the rendering of 0, the effect does not. */
  lemma TokensAgreeUnlessZeroY2(p: DataPoint, show: real -> string)
    requires show(0.0) != ""
    ensures MemoToken(p, show) == EffectToken(p, show) <==> p.y2 != Some(0.0)
  {
  }

  lemma {:induction false} JoinAppend(a: seq<DataPoint>, b: seq<DataPoint>, token: DataPoint -> string)
    ensures Join(a + b, token) == Join(a, token) + Join(b, token)
    decreases |a|
  {
    if a == [] {
      assert a + b == b;
    } else {
      assert (a + b)[0] == a[0];
      assert (a + b)[1..] == a[1..] + b;
      JoinAppend(a[1..], b, token);
    }
  }

  /** Without a zero `y2` the two strings are the same. */
  lemma {:induction false} KeysAgreeWithoutZeroY2(data: seq<DataPoint>, show: real -> string)
    ensures (forall i :: 0 <= i < |data| ==> data[i].y2 != Some(0.0)) ==>
              EffectKey(data, show) == MemoKey(data, show)
    decreases |data|
  {
    if data != [] {
      KeysAgreeWithoutZeroY2(data[1..], show);
      if forall i :: 0 <= i < |data| ==> data[i].y2 != Some(0.0) {
        assert forall i :: 0 <= i < |data[1..]| ==> data[1..][i].y2 == data[i + 1].y2;
      }
    }
  }

  /** Setting an undefined `y2` to 0 changes the comparator's string but not
      the effect's y string. */
  lemma ZeroY2Divergence(data: seq<DataPoint>, i: nat, show: real -> string)
    requires i < |data| && data[i].y2.None? && show(0.0) != ""
    ensures var changed := data[i := data[i].(y2 := Some(0.0))];
            && EffectKey(changed, show) == EffectKey(data, show)
            && MemoKey(changed, show) != MemoKey(data, show)
  {
    var changed := data[i := data[i].(y2 := Some(0.0))];
    assert data == data[..i] + ([data[i]] + data[i + 1..]);
    assert changed == data[..i] + ([changed[i]] + data[i + 1..]);
    var memo := (p: DataPoint) => MemoToken(p, show);
    var effect := (p: DataPoint) => EffectToken(p, show);
    JoinAppend(data[..i], [data[i]] + data[i + 1..], memo);
    JoinAppend([data[i]], data[i + 1..], memo);
    JoinAppend(data[..i], [changed[i]] + data[i + 1..], memo);
    JoinAppend([changed[i]], data[i + 1..], memo);
    JoinAppend(data[..i], [data[i]] + data[i + 1..], effect);
    JoinAppend([data[i]], data[i + 1..], effect);
    JoinAppend(data[..i], [changed[i]] + data[i + 1..], effect);
    JoinAppend([changed[i]], data[i + 1..], effect);
    assert |MemoKey(changed, show)| == |MemoKey(data, show)| + |show(0.0)|;
  }

  /** The chart hands the line a new `allData` array on every render, so a
      parent render that the comparator lets through always re-runs the path
      effect, whatever happened to the line's own y string. */
  lemma FreshAllDataRerunsEffect(prev: EffectDeps, line: Line, allDataRef: nat, show: real -> string)
    requires allDataRef != prev.allDataRef
    ensures EffectDepsOf(line, allDataRef, show) != prev
  {
  }

  /** Turning an undefined `y2` of the line into 0 reaches the line through a
      new `allData`: the comparator's string changes, so the line re-renders;
      the effect's own y string, curve and key stay as they were, and the
      path effect runs again only because the `allData` array is new. */
  lemma ZeroY2RebuildsThroughAllData(line: Line, i: nat, before: seq<DataPoint>, after: seq<DataPoint>,
                                     prevRef: nat, nextRef: nat, show: real -> string)
    requires line.data.Some? && i < |line.data.value| && line.data.value[i].y2.None? && show(0.0) != ""
    requires prevRef != nextRef
    ensures var data := line.data.value;
            var changed := data[i := data[i].(y2 := Some(0.0))];
            var next := line.(data := Some(changed));
            var prevDeps := EffectDepsOf(line, prevRef, show);
            var nextDeps := EffectDepsOf(next, nextRef, show);
            && !MemoEqual(line, before + data + after, next, before + changed + after, show)
            && nextDeps == prevDeps.(allDataRef := nextRef)
            && nextDeps != prevDeps
  {
    var data := line.data.value;
    var changed := data[i := data[i].(y2 := Some(0.0))];
    var all := before + data + after;
    ZeroY2Divergence(all, |before| + i, show);
    assert all[|before| + i := all[|before| + i].(y2 := Some(0.0))] == before + changed + after;
    ZeroY2Divergence(data, i, show);
  }

  /** A memoized line under its chart. `chartRenders` numbers the `allData`
      arrays the chart has built (src/SvgPath.tsx:52-68 builds one per
      render), so array k has identity k; `line` and `allData` are the props
      the line last rendered with, `deps` the path effect's dependencies at
      that render, and `effectRuns` counts the effect's runs, each of which
      builds a path and hands it to `setLocalPath`. */
  class MemoizedLine {
    const show: real -> string
    var line: Line
    var allData: seq<DataPoint>
    var allDataRef: nat
    var chartRenders: nat
    var deps: EffectDeps
    var effectRuns: nat

    ghost predicate Valid()
      reads this
    {
      allDataRef <= chartRenders && deps == EffectDepsOf(line, allDataRef, show)
    }

    /** The first render, at the chart's first render; the effect runs once
        after mounting. */
    constructor (line: Line, allData: seq<DataPoint>, show: real -> string)
      ensures Valid()
      ensures this.line == line && this.allData == allData && this.show == show
      ensures chartRenders == 0 && effectRuns == 1
    {
      this.show := show;
      this.line := line;
      this.allData := allData;
      allDataRef := 0;
      chartRenders := 0;
      deps := EffectDepsOf(line, 0, show);
      effectRuns := 1;
    }

    /** A render of the chart with new props for this line. The comparator
        decides whether the line renders; when it does, the path effect runs
        again and replaces `localPath`, since its `allData` dependency is a
        new array. */
    method ChartRender(nextLine: Line, nextAll: seq<DataPoint>) returns (rendered: bool)
      requires Valid()
      modifies this
      ensures Valid() && chartRenders == old(chartRenders) + 1
      ensures rendered <==> !MemoEqual(old(line), old(allData), nextLine, nextAll, show)
      ensures rendered ==> line == nextLine && allData == nextAll && effectRuns == old(effectRuns) + 1
      ensures rendered ==> allDataRef == chartRenders && allDataRef != old(allDataRef)
      ensures !rendered ==> line == old(line) && allData == old(allData) && effectRuns == old(effectRuns)
      ensures !rendered ==> allDataRef == old(allDataRef) && deps == old(deps)
    {
      chartRenders := chartRenders + 1;
      if MemoEqual(line, allData, nextLine, nextAll, show) {
        rendered := false;
      } else {
        rendered := true;
        line, allData, allDataRef := nextLine, nextAll, chartRenders;
        var nextDeps := EffectDepsOf(line, allDataRef, show);
        if nextDeps != deps {
          effectRuns := effectRuns + 1;
        }
        deps := nextDeps;
      }
    }

    /** A render caused by the line's own state (`setLocalPath`, the
        background flag): the props are the same, so every dependency is
        the same, the path effect does not run and `localPath` is not
        replaced. */
    method OwnStateRender()
      requires Valid()
      modifies this
      ensures Valid()
      ensures line == old(line) && allData == old(allData) && chartRenders == old(chartRenders)
      ensures allDataRef == old(allDataRef) && deps == old(deps)
      ensures effectRuns == old(effectRuns)
    {
      var nextDeps := EffectDepsOf(line, allDataRef, show);
      effectRuns := effectRuns + if nextDeps != deps then 1 else 0;
      deps := nextDeps;
    }
  }

  /** Two series with the same y and y2 values, point by point. */
  predicate SameYs(a: seq<DataPoint>, b: seq<DataPoint>) {
    |a| == |b| && forall i :: 0 <= i < |a| ==> a[i].y == b[i].y && a[i].y2 == b[i].y2
  }

  lemma {:induction false} MemoKeyIgnoresX(a: seq<DataPoint>, b: seq<DataPoint>, show: real -> string)
    requires SameYs(a, b)
    ensures MemoKey(a, show) == MemoKey(b, show)
    decreases |a|
  {
    if a != [] {
      assert MemoToken(a[0], show) == MemoToken(b[0], show);
      MemoKeyIgnoresX(a[1..], b[1..], show);
    }
  }

  /** What the comparator does not look at never re-renders the line: moving
      points along x, or changing any other field of the line (width, fill,
      fades, active-point or end-point configuration, and the values of its
      own points when `allData` keeps the same y string). */
  lemma MemoSkipsUncomparedChanges(prev: Line, prevAll: seq<DataPoint>, next: Line, nextAll: seq<DataPoint>,
                                   show: real -> string)
    requires |DataOf(prev)| == |DataOf(next)| && prev.curve == next.curve
    requires prev.lineColor == next.lineColor && prev.key == next.key
    requires SameYs(prevAll, nextAll)
    ensures MemoEqual(prev, prevAll, next, nextAll, show)
  {
    MemoKeyIgnoresX(prevAll, nextAll, show);
  }

  /** A new gradient array with the very same colours still counts as a
      change of colour, because arrays compare by identity. */
  lemma FreshGradientArrayReRenders(prev: Line, prevAll: seq<DataPoint>, next: Line, nextAll: seq<DataPoint>,
                                    show: real -> string)
    requires prev.lineColor.Gradient? && next.lineColor.Gradient?
    requires prev.lineColor.colors == next.lineColor.colors && prev.lineColor.ref != next.lineColor.ref
    ensures !MemoEqual(prev, prevAll, next, nextAll, show)
  {
  }
}
