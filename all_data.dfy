/** `allData`: every line's points gathered into one series, the input of the
    axis min/max computation (src/SvgPath.tsx:52-68). */
module AllData {
  import opened JsValues
  import opened ChartTypes

  /** One step of the `lines.reduce` callback. A line without data leaves the
      accumulator alone; a line with data is appended. For a ranged line the
      callback also builds the `y2` side series and calls `acc.concat` on it,
      but `concat` returns a new array and that array is dropped, so the side
      series never reaches the accumulator and is not modelled. */
  function ReduceStep(acc: seq<DataPoint>, line: Line): seq<DataPoint> {
    match line.data
    case None => acc
    case Some(d) => acc + d
  }

  /** `lines.reduce(step, acc)`: a left fold. The accumulator is only ever
      appended to, so what it held stays in front. */
  function Reduce(acc: seq<DataPoint>, lines: seq<Line>): (all: seq<DataPoint>)
    ensures |acc| <= |all| && all[..|acc|] == acc
    decreases |lines|
  {
    if lines == [] then acc else Reduce(ReduceStep(acc, lines[0]), lines[1..])
  }

  /** Reference definition: the series of every line, in order, one after another. */
  function Concat(lines: seq<Line>): seq<DataPoint>
    decreases |lines|
  {
    if lines == [] then [] else DataOf(lines[0]) + Concat(lines[1..])
  }

  lemma {:induction false} ReduceIsConcat(acc: seq<DataPoint>, lines: seq<Line>)
    ensures Reduce(acc, lines) == acc + Concat(lines)
    decreases |lines|
  {
    if lines != [] {
      ReduceIsConcat(ReduceStep(acc, lines[0]), lines[1..]);
      assert ReduceStep(acc, lines[0]) == acc + DataOf(lines[0]);
    }
  }

  /** The reduce as the chart runs it, from an empty accumulator. It is exactly
      the concatenation of every defined series: no `y2` points are added. */
  function AllData(lines: seq<Line>): (all: seq<DataPoint>)
    ensures all == Concat(lines)
  {
    ReduceIsConcat([], lines);
    Reduce([], lines)
  }

  lemma {:induction false} ConcatAppend(a: seq<Line>, b: seq<Line>)
    ensures Concat(a + b) == Concat(a) + Concat(b)
    decreases |a|
  {
    if a == [] {
      assert a + b == b;
    } else {
      assert (a + b)[0] == a[0];
      assert (a + b)[1..] == a[1..] + b;
      ConcatAppend(a[1..], b);
    }
  }

  /** Order is kept: point `j` of line `k` sits in `allData` right after the
      points of the lines before `k`. */
  lemma AllDataInOrder(lines: seq<Line>, k: nat, j: nat)
    requires k < |lines| && j < |DataOf(lines[k])|
    ensures |AllData(lines[..k])| + j < |AllData(lines)|
    ensures AllData(lines)[|AllData(lines[..k])| + j] == DataOf(lines[k])[j]
  {
    assert lines == lines[..k] + ([lines[k]] + lines[k + 1..]);
    ConcatAppend(lines[..k], [lines[k]] + lines[k + 1..]);
    ConcatAppend([lines[k]], lines[k + 1..]);
    assert Concat([lines[k]]) == DataOf(lines[k]);
  }

  /** Only the series themselves are counted: the size of `allData` is the sum
      of the series sizes, whether or not a line is ranged. */
  function PointCount(lines: seq<Line>): nat
    decreases |lines|
  {
    if lines == [] then 0 else |DataOf(lines[0])| + PointCount(lines[1..])
  }

  lemma {:induction false} AllDataSize(lines: seq<Line>)
    ensures |AllData(lines)| == PointCount(lines)
    decreases |lines|
  {
    if lines != [] {
      AllDataSize(lines[1..]);
    }
  }
}
