# react-native-simple-line-chart: line and follower decision rules in Dafny

This project models the decision rules of the line chart's line component
(`src/SvgPath.tsx`) and of the follower that tracks the touched point
(`src/ActivePointComponentWrapper.tsx`), and proves what they promise:

- how the points of every line are gathered into `allData` (`AllData`);
- how a touch offset becomes the active index (`ActiveIndex`);
- how a line's colour and fades become gradient stops (`GradientStops`);
- how a line resolves its configuration into what it draws (`LineConfig`):
  the active point's colour and props, the end point's props, the path
  arguments, stroke and fill, and the gradient anchors;
- when a line re-renders and when its path effect runs again (`MemoKeys`);
- where the follower is placed, how the reaction to a new active point
  updates its state, and which custom renderer it draws (`ActivePointWrapper`).

`JsValues` holds the JavaScript rules these depend on (`undefined`,
truthiness, `||` versus `!== undefined`, and `~~`), `ChartTypes` the data
model, and `Defaults` the constants of `src/defaults.tsx`.

Numbers are modelled as `real`. The path builder, the axis min/max
computation and the nearest-point search are not part of this model: a
built path is identified by the arguments it is built from (`PathArgs`), the
axis bounds are an input (`AxisMinMax`), and the nearest-point search is a
function parameter about which nothing is assumed. JavaScript's rendering
of a number as a string is a parameter `show` as well.

Two behaviours of the code are easy to misread, and the model follows the
code as written. First, for a ranged line the reduce builds a `y2` side
series, but the result of `acc.concat(sideLine)` is dropped, so `allData`
holds exactly the lines' own points (`AllData.AllData`). Second, the answer
of the nearest-point search is clamped only from above, so an empty series
gives the index -1 whenever the search answers with an index of 0 or more;
a negative answer is returned unchanged (`ActiveIndex.ActiveIndex`).

## Model

| member | source | states |
|---|---|---|
| `JsValues.Trunc` | src/SvgPath.tsx:84 | the result is the integer part of the input: same sign, at most 1 closer to zero |
| `JsValues.ToInt32` | src/SvgPath.tsx:84 | `~~x` lies in the signed 32-bit range and is the truncation of `x` modulo 2^32 |
| `JsValues.DoubleTildeTruncates` | src/SvgPath.tsx:84 | for offsets that fit in 32 bits, `~~x` is truncation toward zero |
| `AllData.Reduce` | src/SvgPath.tsx:52-68 | the reduce only ever appends: the accumulator it starts from stays in front of the result |
| `AllData.ReduceIsConcat` | src/SvgPath.tsx:52-68 | the reduce from any accumulator appends the concatenation of the defined series |
| `AllData.AllData` | src/SvgPath.tsx:52-68 | `allData` equals the lines' series concatenated in order; no `y2` side series is added |
| `AllData.AllDataInOrder` | src/SvgPath.tsx:52-68 | point j of line k sits in `allData` right after all points of the lines before k |
| `AllData.AllDataSize` | src/SvgPath.tsx:55-65 | the size of `allData` is the sum of the series sizes, ranged lines included |
| `ActiveIndex.PercentToDomainEnds` | src/SvgPath.tsx:99-103 | the percentage map sends 0 to `minX` and 100 to `maxX` and keeps order on a non-reversed axis |
| `ActiveIndex.TouchTargetIsLinear` | src/SvgPath.tsx:96-103 | the target is `minX` plus the touch's share of `svgWidth - endSpacing` times the span; the left edge gives `minX`, the drawable end gives `maxX` |
| `ActiveIndex.ActiveIndex` | src/SvgPath.tsx:82-115 | a 0 truncated touch with a truthy `initialActivePoint` returns it unclamped; otherwise the result is at most `dataLength - 1`, equals the search's answer when that is inside the series, and is `dataLength - 1` otherwise |
| `GradientStops.StopPoints` | src/SvgPath.tsx:247-261 | one stop per colour in order; a gradient has as many stops as colours, a solid colour exactly four, all of the line colour |
| `GradientStops.StopOffset` | src/SvgPath.tsx:262-298 | the offset is NaN exactly for a one-stop list; with two or more stops the first is at 100% and the last at 0%; a solid line's middle stops sit at 50% without an object fade with a truthy percentage |
| `GradientStops.StopOpacity` | src/SvgPath.tsx:299-318 | stops other than the first and last are opaque, and so is every stop without fades; the first takes a given leading opacity, a later last stop a given trailing opacity |
| `GradientStops.EndOffsets` | src/SvgPath.tsx:262-271 | with two or more stops the first is at 100% and the last at 0% whatever the fades |
| `GradientStops.GradientOffsetsEvenlySpaced` | src/SvgPath.tsx:262-271 | gradient offsets lie in [0, 100] and consecutive ones differ by 100/(n-1) |
| `GradientStops.SolidMiddleOffsets` | src/SvgPath.tsx:273-294 | a solid line's second stop is at `100 - p/2` for an object fade with truthy `leadingPercentage` p, else 50; its third at `q/2` likewise, else 50; with percentages in [0, 100] the offsets never increase |
| `GradientStops.StopOpacities` | src/SvgPath.tsx:299-318 | first stop: leading opacity when given; last stop: trailing opacity when given; others 1; for one stop the leading rule wins |
| `GradientStops.PlainSolidStops` | src/SvgPath.tsx:247-318 | a solid colour without fades gives four opaque stops at 100, 50, 50, 0 |
| `GradientStops.ThreeColourGradient` | src/SvgPath.tsx:247-318 | a three-colour list gives stops at 100, 50, 0 with full opacity |
| `GradientStops.StaleLeadingOpacity` | src/SvgPath.tsx:329 | a re-render that changes `leadingOpacity` but neither cache key keeps the old first-stop opacity |
| `GradientStops.CachedStops` | src/SvgPath.tsx:246-329 | with `leadingOpacity` among the keys the cached list always equals the stops of the current line |
| `LineConfig.ActivePointColor` | src/SvgPath.tsx:174-182 | a truthy configured colour wins; else the solid line colour; a gradient line gets black |
| `LineConfig.ActivePointColorNonEmpty` | src/SvgPath.tsx:174-182 | the active point's colour is never empty unless the solid line colour is |
| `LineConfig.ResolveActivePoint` | src/SvgPath.tsx:439-484 | every prop is the configured value or the default: `borderColor`, `verticalLineColor`, `radius`, `verticalLineWidth`, `verticalLineOpacity` when truthy; the dash array whenever given, empty included; `showVerticalLine`, `showActivePointCircle`, `animateTransition` whenever defined, false included |
| `LineConfig.ActivePointElement` | src/SvgPath.tsx:425-486 | the ActivePoint is drawn exactly when `activePointConfig` is given, and its props are exactly those `ResolveActivePoint` resolves with the active point colour; so the border width is non-negative, the radius and line width non-zero, the colours non-empty |
| `LineConfig.BorderWidthRule` | src/SvgPath.tsx:443-448 | `borderWidth` is the configured value iff it is defined and `>= 0`, else 2; it is never negative |
| `LineConfig.ZeroAndFalseHandling` | src/SvgPath.tsx:439-484 | `borderWidth: 0` and false flags are kept; `radius`, `verticalLineWidth` and `verticalLineOpacity` of 0 fall back to 4, 1, 1 |
| `LineConfig.EmptyConfigGivesDefaults` | src/SvgPath.tsx:439-484 | an empty configuration resolves to the defaults table |
| `LineConfig.ResolveEndPoint` | src/SvgPath.tsx:415-419 | the colour and radius are the configured values when truthy, else black and 4; the end point is animated iff configured `true`; so its radius is never 0 and its colour never empty |
| `LineConfig.EndPointElement` | src/SvgPath.tsx:407-421 | the EndPoint is drawn exactly when the line has an `endPointConfig` and an end-point animation exists, with the props `ResolveEndPoint` gives |
| `LineConfig.EndSpacing` | src/SvgPath.tsx:187-190 | a defined `endSpacing`, 0 included, is kept; only undefined gives 20 |
| `LineConfig.LocalPathArgs` | src/SvgPath.tsx:184-197 | the path is closed iff `isAreaChart === true`; it is built from the line's data and curve and the resolved spacing |
| `LineConfig.StrokeWidth` | src/SvgPath.tsx:392-394 | a defined `lineWidth`, 0 included, is kept; only undefined gives 2 |
| `LineConfig.Fill` | src/SvgPath.tsx:395-401 | the fill is the gradient iff the line is an area chart or ranged, and then equals the stroke |
| `LineConfig.FillFollowsPathClosure` | src/SvgPath.tsx:395-401 | a closed path is always painted; a ranged non-area line is painted although its path is not closed |
| `LineConfig.GradientAnchors` | src/SvgPath.tsx:331-342 | without points the anchors are 0 and `svgWidth`; an end point with a non-zero x is anchored at its projection, one with x 0 at 0 (start) or `svgWidth` (end) |
| `LineConfig.AnchorsProjectEndPoints` | src/SvgPath.tsx:331-342 | the start anchor is the first point's projection whenever the projection sends 0 to 0; the end anchor is the last point's projection iff its x is not 0 or the projection sends 0 to `svgWidth` |
| `LineConfig.LinePathState.constructor` | src/SvgPath.tsx:201-203 | the initial path is the one built from the initial arguments |
| `LineConfig.LinePathState.OnDependenciesChanged` | src/SvgPath.tsx:216-227 | without animation the new path replaces the current one at once; with animation the current path stays and the new one becomes the animation's action |
| `LineConfig.LinePathState.SetLocalPath` | src/SvgPath.tsx:222-226 | the given path becomes the current one |
| `MemoKeys.MemoEqual` | src/SvgPath.tsx:491-514 | the same props always compare equal; equal props have the same point count, curve and key, and the same colour when it is a string |
| `MemoKeys.EffectDepsOf` | src/SvgPath.tsx:228-240 | the dependencies are the line's y string, curve, key and the `allData` identity; without a `y2` of 0 the y string is the comparator's string for the line's series |
| `MemoKeys.TokensAgreeUnlessZeroY2` | src/SvgPath.tsx:229-236 | the comparator's and the effect's token for a point agree iff its `y2` is not 0 |
| `MemoKeys.KeysAgreeWithoutZeroY2` | src/SvgPath.tsx:497-512 | without a zero `y2` the comparator's y string equals the effect's |
| `MemoKeys.ZeroY2Divergence` | src/SvgPath.tsx:229-236 | turning an undefined `y2` into 0 changes the comparator's string but not the effect's y string |
| `MemoKeys.FreshAllDataRerunsEffect` | src/SvgPath.tsx:228-240 | a new `allData` array alone changes the effect's dependencies |
| `MemoKeys.ZeroY2RebuildsThroughAllData` | src/SvgPath.tsx:228-240 | a line whose undefined `y2` becomes 0 passes the comparator and re-runs the path effect, with its y string, curve and key unchanged: only the new `allData` array moved |
| `MemoKeys.MemoizedLine.constructor` | src/SvgPath.tsx:216-240 | the first render runs the path effect once |
| `MemoKeys.MemoizedLine.ChartRender` | src/SvgPath.tsx:491-514 | the line renders iff the comparator says the props differ, and then it takes the new props and a fresh `allData` identity and the path effect runs again; otherwise props, `allData` identity, dependencies and effect-run count all stay |
| `MemoKeys.MemoizedLine.OwnStateRender` | src/SvgPath.tsx:228-240 | a render from the line's own state keeps the props, the `allData` identity and every dependency, so the path effect does not re-run and `localPath` is not replaced |
| `MemoKeys.MemoKeyIgnoresX` | src/SvgPath.tsx:497-512 | two series with the same y and y2 values have the same comparator string whatever their x |
| `MemoKeys.MemoSkipsUncomparedChanges` | src/SvgPath.tsx:491-514 | changes to x values or to fields other than length, curve, colour and key do not re-render the line |
| `MemoKeys.FreshGradientArrayReRenders` | src/SvgPath.tsx:495 | a new gradient array with the same colours counts as a change |
| `ActivePointWrapper.ComponentPositionX` | src/ActivePointComponentWrapper.tsx:43-71 | left to right the follower starts 15 right of the line, or with overflow ends 15 left of it; right to left the same distances hold measured from the right edge |
| `ActivePointWrapper.LtrPlacement` | src/ActivePointComponentWrapper.tsx:60-70 | left to right: without overflow the follower starts at `x + 15` and its right edge stays within the width; with overflow its right edge is at `x - 15` |
| `ActivePointWrapper.RtlMirrorsLtr` | src/ActivePointComponentWrapper.tsx:46-58 | the right-to-left translation is the negated left-to-right translation at the mirrored position `width - x` |
| `ActivePointWrapper.RisesCountsTransitions` | src/ActivePointComponentWrapper.tsx:91-94 | the forced re-render count equals the number of positions where a defined value follows an undefined one |
| `ActivePointWrapper.SteadyPointAddsNoRerender` | src/ActivePointComponentWrapper.tsx:91-94 | any number of frames on the same defined point adds no forced re-render |
| `ActivePointWrapper.RenderedFollowers` | src/ActivePointComponentWrapper.tsx:110-117 | a shared-value renderer is drawn alone; the plain one only without it, with a defined snapshot and a plain renderer; never both |
| `ActivePointWrapper.Follower.constructor` | src/ActivePointComponentWrapper.tsx:36-41 | the follower starts 100 wide with no snapshot and no forced re-render |
| `ActivePointWrapper.Follower.React` | src/ActivePointComponentWrapper.tsx:87-100 | one forced re-render exactly on an undefined-to-defined step; the snapshot is the latest value when a plain renderer is given and stays undefined otherwise |
| `ActivePointWrapper.Follower.OnLayout` | src/ActivePointComponentWrapper.tsx:105-108 | after a layout the follower width is the measured width |
| `ActivePointWrapper.Follower.PositionX` | src/ActivePointComponentWrapper.tsx:43-71 | the follower is placed with the width it last measured: left to right 15 right of the line, or with overflow ending 15 left of it |

## Findings

| source | as written | input that shows it | evidently intended | confidence | as-written member | corrected member |
|---|---|---|---|---|---|---|
| src/SvgPath.tsx:329 | the stop list is cached with `useCallback` on `line.lineColor` and `line.trailingOpacity` only, but it also reads `line.leadingOpacity` | a solid `"red"` line without fades re-rendered with one more point and `leadingOpacity: 0.2`: the first stop stays at opacity 1 instead of 0.2 | `leadingOpacity` among the cache keys, so the stops follow the current line | medium, not executed | `GradientStops.StaleLeadingOpacity` (with `GradientStops.CachedStopsAsWritten`) | `GradientStops.CachedStops` |

## Left out

- The path builder (`createNewPath`), the axis bounds (`getChartMinMaxValue`), the nearest-point search (`getIndexOfTheNearestXPoint`), `useForceReRender` and `useChartAnimation` are not part of this model. The search is a parameter of `ActiveIndex.ActiveIndex`. A forced re-render is counted in `Follower.forcedRerenders`. A path is represented by its `PathArgs`.
- reanimated's `interpolate` appears only as the linear map from [0, 100] onto [minX, maxX], extended beyond both ends. `withTiming`, `useDerivedValue`, `useAnimatedStyle` and the fade opacity are not modelled.
- `useAnimatedReaction`: the handler runs once per new value. Its `previous` is `null` on the first call (`Prior.Initial`), so a first defined value forces no re-render. `runOnJS` hand-offs take effect immediately; the hop between threads is not modelled.
- React's tree building, `useMemo`/`useEffect` scheduling and the `key`/`identifier` strings are not modelled. `MemoizedLine` keeps one line's last rendered props, its effect dependencies and a count of the path effect's runs; the comparator compares the new props with the last rendered ones, and the effect runs right after the render that changed a dependency. The cached stop list is modelled as a value. The anchors of `pathStartX`/`pathEndX` are computed once at mount; the model computes them from a given projection and does not model that they go stale.
- The argument of `React.useState(localCreateNewPath())` (src/SvgPath.tsx:201-203) is evaluated on every render of the line, own-state renders included, and the path it builds is discarded after mount; the model does not count those builds, only the path effect's runs, which are what replace `localPath`.
- The iOS white-flash workaround (`isReadyToRenderBackground`, `setTimeout` in `onLayout`), `Platform.OS`, `I18nManager.isRTL` (a parameter) and `Dimensions.get` are platform I/O.
- `ActiveIndex.ActiveIndex` requires `svgWidth - endSpacing != 0`; JavaScript divides by zero there and passes Infinity or NaN to the foreign search. IEEE-754 behaviour is otherwise not modelled. The only NaN kept is the offset of a one-colour gradient list (`Offset.NotANumber`).
- `initialActivePoint` is modelled as an integer index; a fractional value would be returned as it is by the source.
- Stop offsets and opacities are modelled as the numbers the source renders into strings (`${offset}%`, `${opacity}`, `'1'`).
- In the stop-list cache, object-valued fades are compared by value. React compares them by reference, so for those the as-written cache is modelled staler than it is.
- The `y2` side series (src/SvgPath.tsx:55-60) is computed and thrown away by the source, so it is not built in the model.
- The routing of `onPointChange` to the active line, the `EndPoint` x/y positions (path projections) and the animation `duration`/`animationType` defaults (src/SvgPath.tsx:211-212) feed collaborators outside this model.
